/**
 * A codec that meets `Lawful`: each value is written as a one-letter tag
 * followed by its parts, with every count and length in unary. It is not
 * JSON text; it shows that the round-trip law the gateway's proofs assume
 * can be met by some pair of functions.
 */
module TaggedCodec {
  import opened Wrappers
  import opened Json

  /** `k` ones followed by a zero. */
  function Unary(k: nat): string {
    if k == 0 then "0" else "1" + Unary(k - 1)
  }

  /** Reads a unary count off the front of `s`, returning the count and what follows. */
  function ReadUnary(s: string): (r: Option<(nat, string)>)
    ensures r.Some? ==> |r.value.1| < |s|
  {
    if s == [] then None
    else if s[0] == '0' then Some((0, s[1..]))
    else if s[0] == '1' then
      match ReadUnary(s[1..])
      case None => None
      case Some((k, rest)) => Some((k + 1, rest))
    else None
  }

  function Enc(p: Json): string
    decreases p, 1
  {
    match p
    case JNull => "n"
    case JBool(b) => if b then "t" else "f"
    case JNumber(bits) => "d" + Unary(bits as nat)
    case JString(s) => "s" + Unary(|s|) + s
    case JArray(items) => "a" + Unary(|items|) + EncItems(p, 0)
    case JObject(ms) => "o" + Unary(|ms|) + EncMembers(p, 0)
  }

  function EncItems(p: Json, i: nat): string
    requires p.JArray? && i <= |p.items|
    decreases p, 0, |p.items| - i
  {
    if i == |p.items| then "" else Enc(p.items[i]) + EncItems(p, i + 1)
  }

  function EncMembers(p: Json, i: nat): string
    requires p.JObject? && i <= |p.members|
    decreases p, 0, |p.members| - i
  {
    if i == |p.members| then ""
    else
      var m := p.members[i];
      assert m.1 < m < p;
      Unary(|m.0|) + m.0 + Enc(m.1) + EncMembers(p, i + 1)
  }

  /** Reads one value off the front of `s`, returning it and what follows. */
  function Dec(s: string): (r: Option<(Json, string)>)
    ensures r.Some? ==> |r.value.1| < |s|
    decreases |s|, 0
  {
    if s == [] then None
    else
      var tag, rest := s[0], s[1..];
      if tag == 'n' then Some((JNull, rest))
      else if tag == 't' then Some((JBool(true), rest))
      else if tag == 'f' then Some((JBool(false), rest))
      else match ReadUnary(rest)
        case None => None
        case Some((k, after)) =>
          if tag == 'd' then
            if k < 0x1_0000_0000_0000_0000 then Some((JNumber(k as Binary64), after)) else None
          else if tag == 's' then
            if k <= |after| then Some((JString(after[..k]), after[k..])) else None
          else if tag == 'a' then
            match DecItems(after, k)
            case None => None
            case Some((items, r)) => Some((JArray(items), r))
          else if tag == 'o' then
            match DecMembers(after, k)
            case None => None
            case Some((ms, r)) => Some((JObject(ms), r))
          else None
  }

  function DecItems(s: string, n: nat): (r: Option<(seq<Json>, string)>)
    ensures r.Some? ==> |r.value.1| <= |s|
    decreases |s|, 1, n
  {
    if n == 0 then Some(([], s))
    else
      match Dec(s)
      case None => None
      case Some((x, rest)) =>
        match DecItems(rest, n - 1)
        case None => None
        case Some((xs, r)) => Some(([x] + xs, r))
  }

  function DecMembers(s: string, n: nat): (r: Option<(seq<(string, Json)>, string)>)
    ensures r.Some? ==> |r.value.1| <= |s|
    decreases |s|, 1, n
  {
    if n == 0 then Some(([], s))
    else
      match ReadUnary(s)
      case None => None
      case Some((k, after)) =>
        if k > |after| then None
        else
          match Dec(after[k..])
          case None => None
          case Some((v, rest)) =>
            match DecMembers(rest, n - 1)
            case None => None
            case Some((ms, r)) => Some(([(after[..k], v)] + ms, r))
  }

  /** The whole text must be one value. */
  function Parse(s: string): Result<Json, string> {
    match Dec(s)
    case Some((p, rest)) => if rest == [] then Ok(p) else Err("Unexpected text after the value")
    case None => Err("Unexpected end of input")
  }

  function Tagged(): Codec {
    Codec(Enc, Parse)
  }

  lemma {:induction false} ReadUnaryOf(k: nat, rest: string)
    ensures ReadUnary(Unary(k) + rest) == Some((k, rest))
  {
    if k > 0 {
      assert (Unary(k) + rest)[1..] == Unary(k - 1) + rest;
      ReadUnaryOf(k - 1, rest);
    }
  }

  lemma {:induction false} DecEnc(p: Json, rest: string)
    ensures Dec(Enc(p) + rest) == Some((p, rest))
    decreases p, 1
  {
    var s := Enc(p) + rest;
    match p
    case JNull =>
    case JBool(b) =>
    case JNumber(bits) =>
      DecEncNumber(bits, rest);
    case JString(str) =>
      DecEncString(str, rest);
    case JArray(items) =>
      assert s[1..] == Unary(|items|) + (EncItems(p, 0) + rest);
      ReadUnaryOf(|items|, EncItems(p, 0) + rest);
      DecEncItems(p, 0, rest);
      assert items[0..] == items;
      DecCountedStep(s, |items|, EncItems(p, 0) + rest);
    case JObject(ms) =>
      assert s[1..] == Unary(|ms|) + (EncMembers(p, 0) + rest);
      ReadUnaryOf(|ms|, EncMembers(p, 0) + rest);
      DecEncMembers(p, 0, rest);
      assert ms[0..] == ms;
      DecCountedStep(s, |ms|, EncMembers(p, 0) + rest);
  }

  lemma DecEncNumber(bits: Binary64, rest: string)
    ensures Dec(Enc(JNumber(bits)) + rest) == Some((JNumber(bits), rest))
  {
    var s := Enc(JNumber(bits)) + rest;
    assert s[1..] == Unary(bits as nat) + rest;
    ReadUnaryOf(bits as nat, rest);
    DecCountedStep(s, bits as nat, rest);
  }

  lemma DecEncString(str: string, rest: string)
    ensures Dec(Enc(JString(str)) + rest) == Some((JString(str), rest))
  {
    var s := Enc(JString(str)) + rest;
    assert s[1..] == Unary(|str|) + (str + rest);
    ReadUnaryOf(|str|, str + rest);
    assert (str + rest)[..|str|] == str && (str + rest)[|str|..] == rest;
    DecCountedStep(s, |str|, str + rest);
  }

  /** One step of `Dec` for the tags followed by a count. */
  lemma DecCountedStep(s: string, k: nat, after: string)
    requires s != [] && ReadUnary(s[1..]) == Some((k, after))
    ensures s[0] == 'd' && k < 0x1_0000_0000_0000_0000 ==> Dec(s) == Some((JNumber(k as Binary64), after))
    ensures s[0] == 's' && k <= |after| ==> Dec(s) == Some((JString(after[..k]), after[k..]))
    ensures s[0] == 'a' && DecItems(after, k).Some? ==>
      Dec(s) == Some((JArray(DecItems(after, k).value.0), DecItems(after, k).value.1))
    ensures s[0] == 'o' && DecMembers(after, k).Some? ==>
      Dec(s) == Some((JObject(DecMembers(after, k).value.0), DecMembers(after, k).value.1))
  {
  }

  lemma {:induction false} DecEncItems(p: Json, i: nat, rest: string)
    requires p.JArray? && i <= |p.items|
    ensures DecItems(EncItems(p, i) + rest, |p.items| - i) == Some((p.items[i..], rest))
    decreases p, 0, |p.items| - i
  {
    if i < |p.items| {
      var x := p.items[i];
      var tail := EncItems(p, i + 1) + rest;
      assert EncItems(p, i) + rest == Enc(x) + tail;
      DecEnc(x, tail);
      DecEncItems(p, i + 1, rest);
      assert [x] + p.items[i + 1..] == p.items[i..];
    } else {
      assert EncItems(p, i) + rest == rest;
      assert p.items[i..] == [];
    }
  }

  lemma {:induction false} DecEncMembers(p: Json, i: nat, rest: string)
    requires p.JObject? && i <= |p.members|
    ensures DecMembers(EncMembers(p, i) + rest, |p.members| - i) == Some((p.members[i..], rest))
    decreases p, 0, |p.members| - i
  {
    if i < |p.members| {
      var name, v := p.members[i].0, p.members[i].1;
      assert v < p.members[i] < p;
      var tail := EncMembers(p, i + 1) + rest;
      var after := name + (Enc(v) + tail);
      EncMembersUnfold(p, i, rest);
      ReadUnaryOf(|name|, after);
      assert after[..|name|] == name && after[|name|..] == Enc(v) + tail;
      DecEnc(v, tail);
      DecEncMembers(p, i + 1, rest);
      DecMembersStep(Unary(|name|) + after, |p.members| - i, |name|, after, v, tail, p.members[i + 1..], rest);
      assert [(name, v)] + p.members[i + 1..] == p.members[i..];
    } else {
      assert EncMembers(p, i) + rest == rest;
      assert p.members[i..] == [];
    }
  }

  lemma EncMembersUnfold(p: Json, i: nat, rest: string)
    requires p.JObject? && i < |p.members|
    ensures EncMembers(p, i) + rest
         == Unary(|p.members[i].0|) + (p.members[i].0 + (Enc(p.members[i].1) + (EncMembers(p, i + 1) + rest)))
  {
    var m := p.members[i];
    var a, b, c, d := Unary(|m.0|), m.0, Enc(m.1), EncMembers(p, i + 1);
    assert EncMembers(p, i) == a + b + c + d;
    Regroup(a, b, c, d, rest);
  }

  lemma Regroup(a: string, b: string, c: string, d: string, e: string)
    ensures a + b + c + d + e == a + (b + (c + (d + e)))
  {
  }

  lemma DecMembersStep(s: string, n: nat, k: nat, after: string, v: Json, tail: string, ms: seq<(string, Json)>, rest: string)
    requires n > 0 && ReadUnary(s) == Some((k, after)) && k <= |after|
    requires Dec(after[k..]) == Some((v, tail))
    requires DecMembers(tail, n - 1) == Some((ms, rest))
    ensures DecMembers(s, n) == Some(([(after[..k], v)] + ms, rest))
  {
  }

  /** The round-trip law holds of this codec, for every value and not only the valid ones. */
  lemma LawfulIsSatisfiable()
    ensures Lawful(Tagged())
    ensures forall p :: Parse(Enc(p)) == Ok(p)
  {
    forall p ensures Parse(Enc(p)) == Ok(p) {
      DecEnc(p, []);
      assert Enc(p) + [] == Enc(p);
    }
  }
}

/**
 * The payloads the gateway passes through, and the JSON library it calls.
 *
 * `JSON.stringify` and `JSON.parse` are not part of this model: they are the
 * two functions of a `Codec`, and every property that depends on them assumes
 * only what `Lawful` says about them. The module `TaggedCodec` exhibits a
 * codec that meets `Lawful`, so the assumption can be met.
 */
module Json {
  import opened Wrappers
  import JsNumber

  /** The 64-bit pattern of an IEEE-754 double, read as an unsigned integer. */
  newtype Binary64 = x: int | 0 <= x < 0x1_0000_0000_0000_0000

  /** A JSON value; a number is the double that JavaScript holds. */
  datatype Json =
    | JNull
    | JBool(b: bool)
    | JNumber(bits: Binary64)
    | JString(s: string)
    | JArray(items: seq<Json>)
    | JObject(members: seq<(string, Json)>)

  /** The double is neither NaN nor infinite. */
  predicate IsFinite(bits: Binary64) {
    (bits as int / 0x10_0000_0000_0000) % 0x800 != 0x7FF
  }

  /** The sign bit alone. */
  const NegativeZero: Binary64 := 0x8000_0000_0000_0000

  /** The value of a string of decimal digits. */
  function NumeralValue(s: string): (n: nat)
    requires JsNumber.AllDecimalDigits(s)
    ensures s == [] ==> n == 0
  {
    if s == [] then 0
    else
      assert s[|s| - 1] in s;
      NumeralValue(s[..|s| - 1]) * 10 + (s[|s| - 1] as int - '0' as int)
  }

  /**
   * An array index of ECMA-262: the canonical numeral (no leading zero) of an
   * integer below 2^32 - 1.
   */
  predicate IsArrayIndex(name: string) {
    && name != []
    && JsNumber.AllDecimalDigits(name)
    && (name[0] != '0' || name == "0")
    && NumeralValue(name) < 0xFFFF_FFFF
  }

  /**
   * The order in which a JavaScript object lists its members: the array-index
   * names first, in ascending numeric order, then the other names.
   */
  predicate InPropertyOrder(ms: seq<(string, Json)>) {
    forall i, j | 0 <= i < j < |ms| && IsArrayIndex(ms[j].0) ::
      IsArrayIndex(ms[i].0) && NumeralValue(ms[i].0) < NumeralValue(ms[j].0)
  }

  /**
   * The values that `JSON.stringify` followed by `JSON.parse` gives back
   * unchanged: every number is finite and not negative zero (stringify writes
   * NaN and the infinities as `null` and -0 as `0`), no object has two
   * members of the same name (parse keeps only the last of them), and every
   * object lists its members in property order (both functions list an
   * object's members in that order, whatever order the text has).
   */
  ghost predicate ValidJson(p: Json) {
    match p
    case JNumber(bits) => IsFinite(bits) && bits != NegativeZero
    case JArray(items) => forall i | 0 <= i < |items| :: ValidJson(items[i])
    case JObject(ms) =>
      && (forall i, j | 0 <= i < j < |ms| :: ms[i].0 != ms[j].0)
      && InPropertyOrder(ms)
      && (forall i | 0 <= i < |ms| :: ValidJson(ms[i].1))
    case _ => true
  }

  /** `JSON.stringify` (total on JSON values) and `JSON.parse` (throws a SyntaxError with a message). */
  datatype Codec = Codec(stringify: Json -> string, parse: string -> Result<Json, string>)

  /**
   * What the gateway relies on: parsing what was stringified gives the value
   * back, and the empty text is not JSON.
   */
  ghost predicate Lawful(codec: Codec) {
    && (forall p | ValidJson(p) :: codec.parse(codec.stringify(p)) == Ok(p))
    && codec.parse("").Err?
  }

  /** Serialised JSON is never the empty string, so JavaScript treats it as truthy. */
  lemma StringifyIsNonEmpty(codec: Codec, p: Json)
    requires Lawful(codec) && ValidJson(p)
    ensures codec.stringify(p) != ""
  {
    assert codec.parse(codec.stringify(p)) == Ok(p);
  }
}

/**
 * JavaScript's global `isNaN` applied to a route parameter.
 *
 * `isNaN(v)` first converts `v` with `ToNumber`. For a string this is the
 * StringNumericLiteral grammar of ECMA-262 (ToNumber applied to the String
 * type): leading and trailing white space and line terminators are ignored,
 * an empty or all-blank string is 0, and otherwise the trimmed text must be a
 * signed decimal literal (digits, an optional fraction, an optional exponent),
 * `Infinity` with an optional sign, or an unsigned `0b`/`0o`/`0x` integer
 * literal. Any other string converts to NaN. `undefined` converts to NaN.
 */
module JsNumber {
  import opened Wrappers

  predicate IsDecimalDigit(c: char) { '0' <= c <= '9' }
  predicate IsBinaryDigit(c: char) { c == '0' || c == '1' }
  predicate IsOctalDigit(c: char) { '0' <= c <= '7' }
  predicate IsHexDigit(c: char) { '0' <= c <= '9' || 'a' <= c <= 'f' || 'A' <= c <= 'F' }
  predicate IsAsciiLetter(c: char) { 'a' <= c <= 'z' || 'A' <= c <= 'Z' }

  /** StrWhiteSpaceChar: WhiteSpace (TAB, VT, FF, ZWNBSP and every Zs space) or LineTerminator. */
  predicate IsStrWhiteSpaceChar(c: char) {
    var n := c as int;
    || n == 0x09 || n == 0x0B || n == 0x0C || n == 0xFEFF
    || n == 0x20 || n == 0xA0 || n == 0x1680 || 0x2000 <= n <= 0x200A
    || n == 0x202F || n == 0x205F || n == 0x3000
    || n == 0x0A || n == 0x0D || n == 0x2028 || n == 0x2029
  }

  predicate AllDecimalDigits(s: string) { forall c | c in s :: IsDecimalDigit(c) }
  predicate AllBinaryDigits(s: string) { forall c | c in s :: IsBinaryDigit(c) }
  predicate AllOctalDigits(s: string) { forall c | c in s :: IsOctalDigit(c) }
  predicate AllHexDigits(s: string) { forall c | c in s :: IsHexDigit(c) }
  predicate AllAsciiLetters(s: string) { forall c | c in s :: IsAsciiLetter(c) }

  /** Drops the leading white space, and only that. */
  function TrimStart(s: string): (t: string)
    ensures |t| <= |s| && t == s[|s| - |t|..]
    ensures forall i :: 0 <= i < |s| - |t| ==> IsStrWhiteSpaceChar(s[i])
    ensures t != [] ==> !IsStrWhiteSpaceChar(t[0])
  {
    if s != [] && IsStrWhiteSpaceChar(s[0]) then TrimStart(s[1..]) else s
  }

  /** Drops the trailing white space, and only that. */
  function TrimEnd(s: string): (t: string)
    ensures |t| <= |s| && t == s[..|t|]
    ensures forall i :: |t| <= i < |s| ==> IsStrWhiteSpaceChar(s[i])
    ensures t != [] ==> !IsStrWhiteSpaceChar(t[|t| - 1])
  {
    if s != [] && IsStrWhiteSpaceChar(s[|s| - 1]) then TrimEnd(s[..|s| - 1]) else s
  }

  /** The length of the longest run of decimal digits that starts `s`. */
  function DigitRun(s: string): (n: nat)
    ensures n <= |s|
    ensures forall i :: 0 <= i < n ==> IsDecimalDigit(s[i])
    ensures n < |s| ==> !IsDecimalDigit(s[n])
  {
    if s != [] && IsDecimalDigit(s[0]) then 1 + DigitRun(s[1..]) else 0
  }

  /** SignedInteger: an optional sign followed by one or more decimal digits. */
  predicate IsSignedInteger(s: string) {
    var u := if s != [] && (s[0] == '+' || s[0] == '-') then s[1..] else s;
    u != [] && AllDecimalDigits(u)
  }

  /** An ExponentPart, or nothing. */
  predicate IsOptionalExponent(s: string) {
    s == [] || ((s[0] == 'e' || s[0] == 'E') && IsSignedInteger(s[1..]))
  }

  /**
   * The decimal forms of StrUnsignedDecimalLiteral other than Infinity:
   * `digits [. [digits]] [exponent]` or `. digits [exponent]`.
   */
  predicate IsUnsignedDecimalDigits(s: string) {
    var i := DigitRun(s);
    var rest := s[i..];
    if rest != [] && rest[0] == '.' then
      var j := DigitRun(rest[1..]);
      (i > 0 || j > 0) && IsOptionalExponent(rest[1 + j..])
    else
      i > 0 && IsOptionalExponent(rest)
  }

  predicate IsStrUnsignedDecimalLiteral(s: string) {
    s == "Infinity" || IsUnsignedDecimalDigits(s)
  }

  predicate IsStrDecimalLiteral(s: string) {
    if s != [] && (s[0] == '+' || s[0] == '-') then IsStrUnsignedDecimalLiteral(s[1..])
    else IsStrUnsignedDecimalLiteral(s)
  }

  /** NonDecimalIntegerLiteral without separators: 0b…, 0o…, 0x… with at least one digit. */
  predicate IsNonDecimalIntegerLiteral(s: string) {
    && |s| > 2 && s[0] == '0'
    && ((s[1] in "bB" && AllBinaryDigits(s[2..]))
        || (s[1] in "oO" && AllOctalDigits(s[2..]))
        || (s[1] in "xX" && AllHexDigits(s[2..])))
  }

  predicate IsStrNumericLiteral(s: string) {
    IsStrDecimalLiteral(s) || IsNonDecimalIntegerLiteral(s)
  }

  /**
   * True when `ToNumber(s)` is a number, i.e. not NaN: a blank string is 0,
   * and a string without padding is a number exactly when it is a literal.
   */
  predicate IsNumericString(s: string): (r: bool)
    ensures AllStrWhiteSpace(s) ==> r
    ensures s != [] && !IsStrWhiteSpaceChar(s[0]) && !IsStrWhiteSpaceChar(s[|s| - 1]) ==> (r <==> IsStrNumericLiteral(s))
  {
    TrimmedText(s);
    var t := TrimEnd(TrimStart(s));
    t == [] || IsStrNumericLiteral(t)
  }

  /** `isNaN(v)` for a value that is `undefined` (None) or a string: true for undefined, false for a blank string. */
  predicate IsNaN(v: Option<string>): (r: bool)
    ensures v.None? ==> r
    ensures v.Some? && AllStrWhiteSpace(v.value) ==> !r
  {
    v.None? || !IsNumericString(v.value)
  }

  /** Trimming a blank string leaves nothing; trimming a string without padding leaves it whole. */
  lemma TrimmedText(s: string)
    ensures AllStrWhiteSpace(s) ==> TrimEnd(TrimStart(s)) == []
    ensures s != [] && !IsStrWhiteSpaceChar(s[0]) && !IsStrWhiteSpaceChar(s[|s| - 1]) ==> TrimEnd(TrimStart(s)) == s
  {
    var t := TrimStart(s);
    assert t != [] ==> t[0] == s[|s| - |t|] && s[|s| - |t|] in s;
    if s != [] && !IsStrWhiteSpaceChar(s[0]) && !IsStrWhiteSpaceChar(s[|s| - 1]) {
      TrimNoOp(s);
    }
  }

  /** A string that neither starts nor ends with white space is its own trimmed text. */
  lemma TrimNoOp(s: string)
    requires s != [] ==> !IsStrWhiteSpaceChar(s[0]) && !IsStrWhiteSpaceChar(s[|s| - 1])
    ensures TrimEnd(TrimStart(s)) == s
  {
  }

  /** Every non-empty string of decimal digits converts to a number. */
  lemma DigitsAreNumeric(s: string)
    requires s != [] && AllDecimalDigits(s)
    ensures IsStrNumericLiteral(s) && IsNumericString(s)
    ensures !IsNaN(Some(s))
  {
    assert s[0] in s && s[|s| - 1] in s;
    TrimNoOp(s);
  }

  /** A non-empty string of ASCII letters converts to a number only when it is "Infinity". */
  lemma LettersAreNaN(s: string)
    requires s != [] && AllAsciiLetters(s)
    ensures IsNumericString(s) <==> s == "Infinity"
    ensures IsNaN(Some(s)) <==> s != "Infinity"
  {
    assert s[0] in s && s[|s| - 1] in s;
    TrimNoOp(s);
  }

  predicate AllStrWhiteSpace(s: string) { forall c | c in s :: IsStrWhiteSpaceChar(c) }

  lemma {:induction false} TrimStartDropsPadding(w: string, x: string)
    requires AllStrWhiteSpace(w)
    ensures TrimStart(w + x) == TrimStart(x)
  {
    if w != [] {
      assert w[0] in w;
      assert (w + x)[1..] == w[1..] + x;
      TrimStartDropsPadding(w[1..], x);
    } else {
      assert w + x == x;
    }
  }

  lemma {:induction false} TrimStartAppend(x: string, y: string)
    requires TrimStart(x) != []
    ensures TrimStart(x + y) == TrimStart(x) + y
  {
    assert x != [];
    if IsStrWhiteSpaceChar(x[0]) {
      assert (x + y)[1..] == x[1..] + y;
      TrimStartAppend(x[1..], y);
    } else {
      assert TrimStart(x) == x;
      assert (x + y)[0] == x[0];
    }
  }

  lemma {:induction false} TrimEndDropsPadding(x: string, w: string)
    requires AllStrWhiteSpace(w)
    ensures TrimEnd(x + w) == TrimEnd(x)
  {
    if w != [] {
      assert w[|w| - 1] in w;
      assert (x + w)[..|x + w| - 1] == x + w[..|w| - 1];
      TrimEndDropsPadding(x, w[..|w| - 1]);
    } else {
      assert x + w == x;
    }
  }

  /** A string that trims to nothing is all white space, so any padding after it trims away too. */
  lemma BlankStaysBlank(s: string, back: string)
    requires TrimStart(s) == [] && AllStrWhiteSpace(back)
    ensures TrimStart(s + back) == []
  {
    assert AllStrWhiteSpace(s) by {
      forall c | c in s ensures IsStrWhiteSpaceChar(c) {
        var i :| 0 <= i < |s| && s[i] == c;
      }
    }
    TrimStartDropsPadding(s, back);
  }

  /** Trailing padding after a string that does not trim to nothing is dropped again by TrimEnd. */
  lemma TrailingPaddingTrimsAway(s: string, back: string)
    requires TrimStart(s) != [] && AllStrWhiteSpace(back)
    ensures TrimEnd(TrimStart(s + back)) == TrimEnd(TrimStart(s))
  {
    TrimStartAppend(s, back);
    TrimEndDropsPadding(TrimStart(s), back);
  }

  /** Trimming removes padding of white space around any string. */
  lemma PaddingTrimsAway(front: string, s: string, back: string)
    requires AllStrWhiteSpace(front) && AllStrWhiteSpace(back)
    ensures TrimEnd(TrimStart(front + s + back)) == TrimEnd(TrimStart(s))
  {
    assert front + s + back == front + (s + back);
    TrimStartDropsPadding(front, s + back);
    if TrimStart(s) == [] {
      BlankStaysBlank(s, back);
    } else {
      TrailingPaddingTrimsAway(s, back);
    }
  }

  /** White space around any string does not change whether it converts to a number. */
  lemma PaddingIsIgnored(front: string, s: string, back: string)
    requires AllStrWhiteSpace(front) && AllStrWhiteSpace(back)
    ensures IsNumericString(front + s + back) <==> IsNumericString(s)
  {
    PaddingTrimsAway(front, s, back);
  }

  /** A literal with no white space at its ends converts to a number. */
  lemma LiteralIsNumeric(s: string)
    requires s != [] && !IsStrWhiteSpaceChar(s[0]) && !IsStrWhiteSpaceChar(s[|s| - 1])
    requires IsStrNumericLiteral(s)
    ensures !IsNaN(Some(s))
  {
    TrimNoOp(s);
  }

  /** Every `0x` literal with at least one hexadecimal digit converts to a number. */
  lemma HexLiteralsAreNumeric(h: string)
    requires h != [] && AllHexDigits(h)
    ensures !IsNaN(Some("0x" + h))
  {
    var s := "0x" + h;
    assert s[|s| - 1] == h[|h| - 1] && h[|h| - 1] in h;
    assert s[0] == '0' && s[1] == 'x' && s[2..] == h;
    assert IsNonDecimalIntegerLiteral(s);
    LiteralIsNumeric(s);
  }

  /** A run of digits ends where the first non-digit follows it. */
  lemma DigitRunOfPrefix(d: string, l: string)
    requires AllDecimalDigits(d) && l != [] && !IsDecimalDigit(l[0])
    ensures DigitRun(d + l) == |d|
  {
    var s := d + l;
    assert s[|d|] == l[0];
    forall i | 0 <= i < |d|
      ensures IsDecimalDigit(s[i])
    {
      assert s[i] == d[i] && d[i] in d;
    }
  }

  /** ASCII letters are no exponent part. */
  lemma LettersAreNoExponent(l: string)
    requires l != [] && AllAsciiLetters(l)
    ensures !IsOptionalExponent(l)
  {
    if |l| > 1 {
      assert l[1] in l && l[1..][0] == l[1] && l[1..][0] in l[1..];
    }
  }

  /** Letters after the digits are neither a fraction nor an exponent. */
  lemma LettersEndNoDecimal(d: string, l: string)
    requires d != [] && AllDecimalDigits(d)
    requires l != [] && AllAsciiLetters(l)
    ensures !IsStrDecimalLiteral(d + l)
  {
    var s := d + l;
    assert d[0] in d && l[0] in l;
    assert s[0] == d[0];
    assert s != "Infinity";
    DigitRunOfPrefix(d, l);
    assert s[|d|..] == l;
    LettersAreNoExponent(l);
    assert !IsUnsignedDecimalDigits(s);
  }

  /** Letters after the digits make no `0b`/`0o` literal, and no `0x` one unless they start with x. */
  lemma LettersEndNoRadixLiteral(d: string, l: string)
    requires d != [] && AllDecimalDigits(d)
    requires l != [] && AllAsciiLetters(l) && l[0] != 'x' && l[0] != 'X'
    ensures !IsNonDecimalIntegerLiteral(d + l)
  {
    var s := d + l;
    if |d| == 1 && |s| > 2 {
      assert s[1] == l[0] && s[2] == l[1] && l[1] in l;
      assert s[2..][0] == s[2] && s[2..][0] in s[2..];
      assert !AllBinaryDigits(s[2..]) && !AllOctalDigits(s[2..]);
    } else if |d| > 1 {
      assert s[1] == d[1] && d[1] in d;
    }
  }

  /**
   * Decimal digits followed by ASCII letters are NaN, unless the letters
   * start with `x` or `X` (which can make a hexadecimal literal of `0x…`).
   */
  lemma DigitsThenLettersAreNaN(d: string, l: string)
    requires d != [] && AllDecimalDigits(d)
    requires l != [] && AllAsciiLetters(l) && l[0] != 'x' && l[0] != 'X'
    ensures IsNaN(Some(d + l))
  {
    var s := d + l;
    assert d[0] in d && l[|l| - 1] in l;
    assert s[0] == d[0] && s[|s| - 1] == l[|l| - 1];
    TrimNoOp(s);
    LettersEndNoDecimal(d, l);
    LettersEndNoRadixLiteral(d, l);
  }
}

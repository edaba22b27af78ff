/** The pieces of JavaScript's string semantics the core relies on: the
    whitespace class used by `trim`, `split(/\s+/)` and `parseInt`,
    `parseInt(s, 10)` itself and the decimal rendering of an integer
    (`Number.prototype.toString`). */
module JsText {
  import opened Wrappers

  /** WhiteSpace and LineTerminator characters of ECMAScript (the `\s` class). */
  predicate IsJsWhitespace(c: char) {
    c == ' ' || c == '\t' || c == '\n' || c == '\r' || c == '\U{000B}' || c == '\U{000C}'
    || c == '\U{00A0}' || c == '\U{1680}' || ('\U{2000}' <= c <= '\U{200A}')
    || c == '\U{2028}' || c == '\U{2029}' || c == '\U{202F}' || c == '\U{205F}'
    || c == '\U{3000}' || c == '\U{FEFF}'
  }

  predicate IsDigit(c: char) { '0' <= c <= '9' }

  function DigitValue(c: char): (d: nat)
    requires IsDigit(c)
    ensures d < 10
  {
    (c as int) - ('0' as int)
  }

  function DigitChar(d: nat): (c: char)
    requires d < 10
    ensures IsDigit(c) && DigitValue(c) == d
  {
    (('0' as int) + d) as char
  }

  /** The text with its leading whitespace removed. */
  function SkipWhitespace(s: string): (r: string)
    ensures |r| <= |s|
  {
    if s == [] || !IsJsWhitespace(s[0]) then s else SkipWhitespace(s[1..])
  }

  /** Length of the longest prefix made of decimal digits. */
  function DigitRun(s: string): (n: nat)
    ensures n <= |s|
    ensures forall i :: 0 <= i < n ==> IsDigit(s[i])
  {
    if s == [] || !IsDigit(s[0]) then 0 else 1 + DigitRun(s[1..])
  }

  /** The number a string of decimal digits denotes, most significant first. */
  function DigitsValue(ds: string): nat
    requires forall i :: 0 <= i < |ds| ==> IsDigit(ds[i])
  {
    if ds == [] then 0 else 10 * DigitsValue(ds[..|ds| - 1]) + DigitValue(ds[|ds| - 1])
  }

  /** `parseInt(s, 10)`: skip leading whitespace, read an optional sign, then the
      longest run of digits; `None` stands for NaN (no digit after the sign). */
  function ParseInt(s: string): Option<int>
  {
    var t := SkipWhitespace(s);
    var signed := |t| > 0 && (t[0] == '-' || t[0] == '+');
    var body := if signed then t[1..] else t;
    var n := DigitRun(body);
    if n == 0 then None
    else
      var v: int := DigitsValue(body[..n]);
      Some(if signed && t[0] == '-' then -v else v)
  }

  /** Decimal digits of a natural number, without leading zeros. */
  function NatToDecimal(n: nat): (s: string)
    ensures |s| > 0
    ensures forall i :: 0 <= i < |s| ==> IsDigit(s[i])
    ensures DigitsValue(s) == n
  {
    if n < 10 then [DigitChar(n)]
    else
      var s := NatToDecimal(n / 10) + [DigitChar(n % 10)];
      assert s[..|s| - 1] == NatToDecimal(n / 10);
      s
  }

  /** `String(v)` for an integer `v`. */
  function IntToDecimal(v: int): (s: string)
    ensures |s| > 0 && (s[0] == '-' <==> v < 0)
  {
    if v < 0 then "-" + NatToDecimal(-v) else NatToDecimal(v)
  }

  /** Reading back the decimal rendering of any integer gives the integer. */
  lemma {:induction false} ParseIntOfDecimal(v: int)
    ensures ParseInt(IntToDecimal(v)) == Some(v)
  {
    var s := IntToDecimal(v);
    var d := NatToDecimal(if v < 0 then -v else v);
    assert !IsJsWhitespace(s[0]);
    assert SkipWhitespace(s) == s;
    var body := if v < 0 then s[1..] else s;
    assert body == d;
    DigitRunAll(d);
    assert d[..|d|] == d;
  }

  lemma {:induction false} DigitRunAll(d: string)
    requires forall i :: 0 <= i < |d| ==> IsDigit(d[i])
    ensures DigitRun(d) == |d|
  {
    if d != [] {
      DigitRunAll(d[1..]);
    }
  }

  /** A single digit character parses to that digit's value. */
  lemma ParseIntDigit(c: char)
    requires IsDigit(c)
    ensures ParseInt([c]) == Some(DigitValue(c))
  {
    var s := [c];
    assert !IsJsWhitespace(c);
    assert SkipWhitespace(s) == s;
    var n := DigitRun(s);
    assert n == 1 by { assert DigitRun(s[1..]) == 0; }
    assert s[..1] == s;
    assert DigitsValue(s) == DigitValue(c) by { assert s[..0] == []; }
  }

  /** A single character that is not a digit is NaN to `parseInt`. */
  lemma ParseIntNonDigit(c: char)
    requires !IsDigit(c)
    ensures ParseInt([c]) == None
  {
    if IsJsWhitespace(c) {
      ParseIntOfBlank(c);
    } else if c == '-' || c == '+' {
      ParseIntOfSign(c);
    } else {
      var s := [c];
      assert SkipWhitespace(s) == s;
      assert DigitRun(s) == 0;
    }
  }

  lemma ParseIntOfBlank(c: char)
    requires IsJsWhitespace(c)
    ensures ParseInt([c]) == None
  {
    var s := [c];
    assert s[1..] == [];
    assert SkipWhitespace(s) == [];
  }

  lemma ParseIntOfSign(c: char)
    requires c == '-' || c == '+'
    ensures ParseInt([c]) == None
  {
    var s := [c];
    assert SkipWhitespace(s) == s;
    assert s[1..] == [];
  }
}

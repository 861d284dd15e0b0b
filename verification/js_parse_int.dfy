/** `parseInt(text, 10)` as ECMAScript defines it (section 19.2.5 of
    ECMA-262): leading white space is skipped, one sign is read, then the
    longest run of decimal digits; no digit at all gives `NaN`, here `None`. */
module JsParseInt {
  import opened Common

  /** ECMAScript's StrWhiteSpaceChar: the white space and line terminator
      code points. */
  predicate IsJsSpace(c: char) {
    || c == '\t' || c == '\U{000B}' || c == '\U{000C}' || c == ' '
    || c == '\U{00A0}' || c == '\U{FEFF}'
    || c == '\n' || c == '\r' || c == '\U{2028}' || c == '\U{2029}'
    || c == '\U{1680}' || ('\U{2000}' <= c <= '\U{200A}')
    || c == '\U{202F}' || c == '\U{205F}' || c == '\U{3000}'
  }

  predicate IsDigit(c: char) {
    '0' <= c <= '9'
  }

  predicate AllDigits(s: string) {
    forall i :: 0 <= i < |s| ==> IsDigit(s[i])
  }

  /** The text after its leading white space. */
  function TrimStart(s: string): (t: string)
    ensures |t| <= |s| && t == s[|s| - |t|..]
    ensures t == [] || !IsJsSpace(t[0])
    ensures forall i :: 0 <= i < |s| - |t| ==> IsJsSpace(s[i])
  {
    if s != [] && IsJsSpace(s[0]) then TrimStart(s[1..]) else s
  }

  /** The longest prefix of decimal digits. */
  function DigitPrefix(s: string): (d: string)
    ensures |d| <= |s| && d == s[..|d|] && AllDigits(d)
    ensures |d| < |s| ==> !IsDigit(s[|d|])
  {
    if s != [] && IsDigit(s[0]) then [s[0]] + DigitPrefix(s[1..]) else []
  }

  function DigitValue(c: char): nat
    requires IsDigit(c)
  {
    c as int - '0' as int
  }

  /** The number a run of decimal digits denotes. */
  function DigitsValue(d: string): nat
    requires AllDigits(d)
  {
    if d == [] then 0 else 10 * DigitsValue(d[..|d| - 1]) + DigitValue(d[|d| - 1])
  }

  /** `parseInt(s, 10)`; `None` stands for `NaN`. */
  function ParseInt(s: string): Option<int> {
    ParseTrimmed(TrimStart(s))
  }

  /** parseInt's reading of text whose white space is already skipped: one
      sign, then the longest run of digits. */
  function ParseTrimmed(t: string): Option<int> {
    var negative := t != [] && t[0] == '-';
    var unsigned := if t != [] && (t[0] == '-' || t[0] == '+') then t[1..] else t;
    var digits := DigitPrefix(unsigned);
    var magnitude: int := if digits == [] then 0 else DigitsValue(digits);
    if digits == [] then None
    else Some(if negative then -magnitude else magnitude)
  }

  // ---------------------------------------------------------------------
  // The decimal text of an integer, and parseInt's inverse property

  function DigitChar(n: nat): (c: char)
    requires n < 10
    ensures IsDigit(c) && DigitValue(c) == n
  {
    ('0' as int + n) as char
  }

  /** The decimal text of `n`, most significant digit first. */
  function Decimal(n: nat): (s: string)
    ensures |s| > 0 && AllDigits(s)
  {
    if n < 10 then [DigitChar(n)] else Decimal(n / 10) + [DigitChar(n % 10)]
  }

  /** The text `String(n)` gives for an integer. */
  function IntText(n: int): string {
    if n < 0 then "-" + Decimal(-n) else Decimal(n)
  }

  lemma {:induction false} DecimalValue(n: nat)
    ensures DigitsValue(Decimal(n)) == n
  {
    if n >= 10 {
      DecimalValue(n / 10);
      var d := Decimal(n);
      assert d[..|d| - 1] == Decimal(n / 10);
    }
  }

  lemma {:induction false} DigitPrefixOfDigits(d: string, rest: string)
    requires AllDigits(d)
    requires rest == [] || !IsDigit(rest[0])
    ensures DigitPrefix(d + rest) == d
  {
    if d != [] {
      assert (d + rest)[1..] == d[1..] + rest;
      DigitPrefixOfDigits(d[1..], rest);
    } else {
      assert d + rest == rest;
    }
  }

  /** Text starting with a digit or a sign is not trimmed. */
  lemma TrimStartKeeps(s: string)
    requires s != [] && (IsDigit(s[0]) || s[0] == '-')
    ensures TrimStart(s) == s
  {
  }

  /** parseInt of text that, after white space and sign, starts with the
      digits `d` followed by a non-digit. */
  lemma ParseIntOfDigits(t: string, d: string, rest: string, negative: bool)
    requires d != [] && AllDigits(d)
    requires rest == [] || !IsDigit(rest[0])
    requires t == (if negative then "-" else "") + (d + rest)
    ensures ParseInt(t) == Some(if negative then -(DigitsValue(d) as int) else DigitsValue(d))
  {
    DigitPrefixOfDigits(d, rest);
    assert (d + rest)[0] == d[0];
    assert t[0] == if negative then '-' else d[0];
    TrimStartKeeps(t);
    assert ParseInt(t) == ParseTrimmed(t);
    var unsigned := if t[0] == '-' || t[0] == '+' then t[1..] else t;
    assert unsigned == d + rest;
    assert DigitPrefix(unsigned) == d;
  }

  /** parseInt of the decimal text of `m`, with or without a minus sign,
      followed by a non-digit. */
  lemma ParseIntOfDecimal(m: nat, rest: string, negative: bool)
    requires rest == [] || !IsDigit(rest[0])
    ensures ParseInt((if negative then "-" else "") + (Decimal(m) + rest)) == Some(if negative then -(m as int) else m as int)
  {
    var d := Decimal(m);
    var t := (if negative then "-" else "") + (d + rest);
    calc {
      ParseInt(t);
    == { ParseIntOfDigits(t, d, rest, negative); }
      Some(if negative then -(DigitsValue(d) as int) else DigitsValue(d) as int);
    == { DecimalValue(m); }
      Some(if negative then -(m as int) else m as int);
    }
  }

  /** parseInt reads back the decimal text of every integer, whatever
      follows it that is not a digit. */
  lemma ParseIntOfIntText(n: int, rest: string)
    requires rest == [] || !IsDigit(rest[0])
    ensures ParseInt(IntText(n) + rest) == Some(n)
  {
    var m: nat := if n < 0 then -n else n;
    var sign := if n < 0 then "-" else "";
    assert IntText(n) + rest == sign + (Decimal(m) + rest);
    ParseIntOfDecimal(m, rest, n < 0);
  }

  /** Leading white space does not change what parseInt reads. */
  lemma ParseIntSkipsSpace(c: char, s: string)
    requires IsJsSpace(c)
    ensures ParseInt([c] + s) == ParseInt(s)
  {
    var cs := [c] + s;
    assert cs != [] && cs[0] == c && cs[1..] == s;
  }

  /** Text that does not start, after white space and one sign, with a
      digit is NaN. */
  lemma ParseIntNaN(s: string)
    requires var t := TrimStart(s);
      var unsigned := if t != [] && (t[0] == '-' || t[0] == '+') then t[1..] else t;
      unsigned == [] || !IsDigit(unsigned[0])
    ensures ParseInt(s) == None
  {
  }
}

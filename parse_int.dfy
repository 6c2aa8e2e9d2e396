/** `parseInt(value)` with no radix: leading white space is skipped, one sign
    is read, a `0x`/`0X` prefix selects base 16, and the longest run of
    digits of the base that follows is read. No digit at all gives `NaN`,
    written `None` here. */
module NumberParsing {
  import opened Wrappers
  import opened Text

  /** The ASCII white space `parseInt` skips. */
  predicate IsSpace(c: char) {
    c == ' ' || c == '\t' || c == '\n' || c == '\r' || c as int == 11 || c as int == 12
  }

  function TrimStart(s: string): (r: string)
    ensures |r| <= |s|
    ensures r == [] || !IsSpace(r[0])
  {
    if s != [] && IsSpace(s[0]) then TrimStart(s[1..]) else s
  }

  /** What is left after the skipped white space is a suffix of the text. */
  lemma {:induction false} TrimStartIsSuffix(s: string)
    ensures TrimStart(s) == s[|s| - |TrimStart(s)|..]
  {
    if s != [] && IsSpace(s[0]) {
      TrimStartIsSuffix(s[1..]);
    }
  }

  /** The value of a character as a digit of base 36; 36 for a character
      that is no digit of any base. */
  function DigitValue(c: char): (d: nat)
    ensures d <= 36
  {
    if '0' <= c <= '9' then c as int - '0' as int
    else if 'a' <= c <= 'z' then c as int - 'a' as int + 10
    else if 'A' <= c <= 'Z' then c as int - 'A' as int + 10
    else 36
  }

  /** The length of the longest prefix of `s` made of digits of `radix`. */
  function DigitRun(s: string, radix: nat): (n: nat)
    ensures n <= |s|
  {
    if s != [] && DigitValue(s[0]) < radix then 1 + DigitRun(s[1..], radix) else 0
  }

  /** The number written by `digits` in base `radix`, most significant
      first. */
  function DigitsValue(digits: string, radix: nat): nat {
    if digits == [] then 0
    else DigitsValue(digits[..|digits| - 1], radix) * radix + DigitValue(digits[|digits| - 1])
  }

  function ParseUnsigned(u: string): Option<nat> {
    var (radix, v) := if |u| >= 2 && u[0] == '0' && (u[1] == 'x' || u[1] == 'X') then (16, u[2..]) else (10, u);
    var n := DigitRun(v, radix);
    if n == 0 then None else Some(DigitsValue(v[..n], radix))
  }

  /** `parseInt(s)`. */
  function ParseInt(s: string): Option<int> {
    ParseTrimmed(TrimStart(s))
  }

  /** What `parseInt` reads once the leading white space is gone. */
  function ParseTrimmed(t: string): Option<int> {
    if t != [] && (t[0] == '-' || t[0] == '+') then
      match ParseUnsigned(t[1..])
      case None => None
      case Some(v) => Some(if t[0] == '-' then 0 - v else v)
    else ParseUnsigned(t)
  }

  /** Every digit string reads back as the number it was written for. */
  lemma {:induction false} DecimalValue(n: nat)
    ensures DigitsValue(NatToDecimal(n), 10) == n
    decreases n
  {
    var s := NatToDecimal(n);
    if n >= 10 {
      DecimalValue(n / 10);
      assert s[..|s| - 1] == NatToDecimal(n / 10);
    }
  }

  /** Without sign and white space, a decimal rendering reads back as its
      number. */
  lemma ParseUnsignedDecimal(n: nat)
    ensures ParseUnsigned(NatToDecimal(n)) == Some(n)
  {
    UnsignedDigits(NatToDecimal(n));
    DecimalValue(n);
  }

  /** `parseInt` inverts the decimal rendering of a number. */
  lemma ParseDecimal(n: nat)
    ensures ParseInt(NatToDecimal(n)) == Some(n)
  {
    var s := NatToDecimal(n);
    assert '0' <= s[0] <= '9';
    DigitFirst(s);
    ParseUnsignedDecimal(n);
  }

  /** Text that starts with a decimal digit is read without sign. */
  lemma DigitFirst(s: string)
    requires s != [] && '0' <= s[0] <= '9'
    ensures ParseInt(s) == ParseUnsigned(s)
  {
    NotSpaceFirst(s);
  }

  /** Nothing is skipped in front of a character that is no white space. */
  lemma NotSpaceFirst(s: string)
    requires s != [] && !IsSpace(s[0])
    ensures ParseInt(s) == ParseTrimmed(s)
  {
    assert TrimStart(s) == s;
  }

  /** A leading minus sign negates what follows it. */
  lemma MinusSign(u: string)
    ensures ParseInt("-" + u) == if ParseUnsigned(u).Some? then Some(0 - ParseUnsigned(u).value) else None
  {
    var t := "-" + u;
    assert t[0] == '-' && t[1..] == u;
    NotSpaceFirst(t);
  }

  /** `parseInt` reads a minus sign in front of a decimal rendering. */
  lemma ParseNegativeDecimal(n: nat)
    ensures ParseInt("-" + NatToDecimal(n)) == Some(0 - n)
  {
    DecimalValue(n);
    NegatedReading(NatToDecimal(n), n);
  }

  lemma NegatedReading(s: string, v: nat)
    requires s != [] && IsDigits(s) && DigitsValue(s, 10) == v
    ensures ParseInt("-" + s) == Some(0 - v)
  {
    NegativeDigits(s);
  }

  /** A minus sign in front of decimal digits negates their value. */
  lemma NegativeDigits(s: string)
    requires s != [] && IsDigits(s)
    ensures ParseInt("-" + s) == Some(0 - DigitsValue(s, 10))
  {
    UnsignedDigits(s);
    MinusSign(s);
  }

  /** Decimal digits without sign read as their value. */
  lemma UnsignedDigits(s: string)
    requires s != [] && IsDigits(s)
    ensures ParseUnsigned(s) == Some(DigitsValue(s, 10))
  {
    assert |s| >= 2 ==> '0' <= s[1] <= '9';
    DigitsRun(s);
    assert s[..|s|] == s;
  }

  lemma {:induction false} DigitsRun(s: string)
    requires IsDigits(s)
    ensures DigitRun(s, 10) == |s|
  {
    if s != [] {
      DigitsRun(s[1..]);
    }
  }

  /** Text that starts with anything but white space, a sign or a decimal
      digit is `NaN`. */
  lemma NoDigitFirst(s: string)
    requires s != [] && !IsSpace(s[0]) && s[0] != '-' && s[0] != '+' && DigitValue(s[0]) >= 10
    ensures ParseInt(s) == None
  {
    NotSpaceFirst(s);
    assert DigitRun(s, 10) == 0;
  }

  /** A `0x` prefix switches to base 16. */
  lemma HexPrefix(v: string)
    ensures ParseInt("0x" + v) == ParseUnsigned("0x" + v)
    ensures ParseUnsigned("0x" + v) == (if DigitRun(v, 16) == 0 then None else Some(DigitsValue(v[..DigitRun(v, 16)], 16)))
  {
    var t := "0x" + v;
    assert t[0] == '0' && t[1] == 'x' && t[2..] == v;
    NotSpaceFirst(t);
  }

  /** Leading white space does not change what is read. */
  lemma SpaceIgnored(c: char, s: string)
    requires IsSpace(c)
    ensures ParseInt([c] + s) == ParseInt(s)
  {
    assert ([c] + s)[1..] == s;
  }
}

/**
  JavaScript numbers as the volume plugin meets them, restricted to integers:
  the value `parseInt(text, 10)` yields for a receiver's reply, and the
  decimal text a template literal such as `/setVolume/${v}` makes of an
  integer.
 */
module Decimal {

  /** A JavaScript number as the plugin's cache holds it: an integer or NaN. */
  datatype Num = Int(value: int) | NaN

  /** JavaScript's `v > 0`; NaN compares false with everything. */
  predicate IsPositive(v: Num) {
    v.Int? && v.value > 0
  }

  predicate IsDigit(c: char) {
    '0' <= c <= '9'
  }

  predicate AllDigits(s: string) {
    forall i :: 0 <= i < |s| ==> IsDigit(s[i])
  }

  function DigitValue(c: char): (d: nat)
    requires IsDigit(c)
    ensures d < 10
  {
    c as int - '0' as int
  }

  function DigitChar(d: nat): (c: char)
    requires d < 10
    ensures IsDigit(c) && DigitValue(c) == d
  {
    ('0' as int + d) as char
  }

  /** The decimal numeral of `n`, most significant digit first, no leading zeros. */
  function NatString(n: nat): (s: string)
    ensures |s| > 0 && AllDigits(s)
  {
    if n < 10 then [DigitChar(n)] else NatString(n / 10) + [DigitChar(n % 10)]
  }

  /** The numeral has no leading zero, apart from "0" itself. */
  lemma {:induction false} NatStringHasNoLeadingZero(n: nat)
    ensures |NatString(n)| > 1 ==> NatString(n)[0] != '0'
    ensures NatString(n)[0] == '0' <==> n == 0
  {
    if n >= 10 {
      NatStringHasNoLeadingZero(n / 10);
    }
  }

  /** What JavaScript's number-to-string conversion makes of an integer
      (for magnitudes below 10^21, where it does not switch to exponent form). */
  function IntString(n: int): (s: string)
    ensures |s| > 0
    ensures n < 0 <==> s[0] == '-'
  {
    if n < 0 then ['-'] + NatString(-n) else NatString(n)
  }

  /** The value of a digit string read most significant digit first. */
  function DigitsValue(s: string): nat
    requires AllDigits(s)
  {
    if s == [] then 0 else DigitsValue(s[..|s| - 1]) * 10 + DigitValue(s[|s| - 1])
  }

  /** The characters `parseInt` skips at the start of its argument: the
      ECMAScript white space and line terminators (StrWhiteSpaceChar). */
  predicate IsWhiteSpace(c: char) {
    c == '\t' || c == '\n' || c == '\U{000B}' || c == '\U{000C}' || c == '\r' ||
    c == ' ' || c == '\U{00A0}' || c == '\U{1680}' || ('\U{2000}' <= c <= '\U{200A}') ||
    c == '\U{2028}' || c == '\U{2029}' || c == '\U{202F}' || c == '\U{205F}' ||
    c == '\U{3000}' || c == '\U{FEFF}'
  }

  /** `s` without its leading white space. */
  function TrimStart(s: string): string {
    if s != [] && IsWhiteSpace(s[0]) then TrimStart(s[1..]) else s
  }

  /** The longest prefix of `s` made of decimal digits. */
  function DigitPrefix(s: string): (r: string)
    ensures AllDigits(r)
  {
    if s != [] && IsDigit(s[0]) then [s[0]] + DigitPrefix(s[1..]) else []
  }

  /** JavaScript's `parseInt(s, 10)`: skip leading white space, take one
      optional sign, then read the longest run of decimal digits; text after
      the digits is ignored, and no digit at all gives NaN. */
  function ParseInt(s: string): (r: Num)
    ensures r.Int? && r.value < 0 ==> TrimStart(s) != [] && TrimStart(s)[0] == '-'
  {
    ParseSigned(TrimStart(s))
  }

  function ParseSigned(t: string): Num {
    if t != [] && t[0] == '-' then Negate(ParseDigits(t[1..]))
    else if t != [] && t[0] == '+' then ParseDigits(t[1..])
    else ParseDigits(t)
  }

  function Negate(v: Num): Num {
    match v
    case Int(n) => Int(-n)
    case NaN => NaN
  }

  function ParseDigits(u: string): Num {
    var digits := DigitPrefix(u);
    if digits == [] then NaN else Int(DigitsValue(digits))
  }

  /** `TrimStart` removes exactly the leading run of white space. */
  lemma {:induction false} TrimStartRemovesLeadingWhiteSpace(s: string)
    ensures var r := TrimStart(s);
      && |r| <= |s| && r == s[|s| - |r|..]
      && (forall i :: 0 <= i < |s| - |r| ==> IsWhiteSpace(s[i]))
      && (r == [] || !IsWhiteSpace(r[0]))
  {
    if s != [] && IsWhiteSpace(s[0]) {
      var t := s[1..];
      TrimStartRemovesLeadingWhiteSpace(t);
      var r := TrimStart(t);
      forall i | 1 <= i < |s| - |r| ensures IsWhiteSpace(s[i]) {
        assert s[i] == t[i - 1];
      }
    }
  }

  /** `DigitPrefix` is the longest run of digits `s` starts with. */
  lemma {:induction false} DigitPrefixIsLongestRun(s: string)
    ensures var r := DigitPrefix(s);
      r <= s && (|r| == |s| || !IsDigit(s[|r|]))
  {
    if s != [] && IsDigit(s[0]) {
      DigitPrefixIsLongestRun(s[1..]);
    }
  }

  lemma {:induction false} DigitPrefixOfDigits(s: string, rest: string)
    requires AllDigits(s)
    requires rest == [] || !IsDigit(rest[0])
    ensures DigitPrefix(s + rest) == s
  {
    if s != [] {
      assert (s + rest)[1..] == s[1..] + rest;
      DigitPrefixOfDigits(s[1..], rest);
    } else {
      assert s + rest == rest;
    }
  }

  lemma {:induction false} DigitsValueOfNatString(n: nat)
    ensures DigitsValue(NatString(n)) == n
  {
    if n >= 10 {
      var s := NatString(n);
      assert s[..|s| - 1] == NatString(n / 10);
      DigitsValueOfNatString(n / 10);
    }
  }

  lemma ParseDigitsOfNatString(n: nat, rest: string)
    requires rest == [] || !IsDigit(rest[0])
    ensures ParseDigits(NatString(n) + rest) == Int(n)
  {
    DigitPrefixOfDigits(NatString(n), rest);
    DigitsValueOfNatString(n);
  }

  lemma ParseIntOfNatString(n: nat, rest: string)
    requires rest == [] || !IsDigit(rest[0])
    ensures ParseInt(NatString(n) + rest) == Int(n)
  {
    var t := NatString(n) + rest;
    assert TrimStart(t) == t by {
      assert t[0] == NatString(n)[0];
    }
    ParseDigitsOfNatString(n, rest);
  }

  lemma ParseIntOfMinusNatString(n: nat, rest: string)
    requires n > 0
    requires rest == [] || !IsDigit(rest[0])
    ensures ParseInt(['-'] + NatString(n) + rest) == Int(-(n as int))
  {
    var u := NatString(n) + rest;
    ParseDigitsOfNatString(n, rest);
    var t := ['-'] + NatString(n) + rest;
    assert t[1..] == u;
    assert TrimStart(t) == t;
  }

  /** A reply whose text starts with the decimal numeral of `n` reads back as
      `n`, whatever non-digit text follows it. */
  lemma ParseIntOfIntString(n: int, rest: string)
    requires rest == [] || !IsDigit(rest[0])
    ensures ParseInt(IntString(n) + rest) == Int(n)
  {
    if n < 0 {
      assert IntString(n) + rest == ['-'] + NatString(-n) + rest;
      ParseIntOfMinusNatString(-n, rest);
    } else {
      ParseIntOfNatString(n, rest);
    }
  }

  /** The decimal numeral of `n` reads back as `n`. */
  lemma ParseIntOfIntStringAlone(n: int)
    ensures ParseInt(IntString(n)) == Int(n)
  {
    ParseIntOfIntString(n, []);
    assert IntString(n) + [] == IntString(n);
  }

  /** Text that holds no digit at all parses to NaN. */
  lemma ParseIntWithoutDigits(s: string)
    requires forall i :: 0 <= i < |s| ==> !IsDigit(s[i])
    ensures ParseInt(s) == NaN
  {
    var t := TrimStart(s);
    TrimStartRemovesLeadingWhiteSpace(s);
    if t != [] && (t[0] == '-' || t[0] == '+') {
      assert t[1..] == [] || t[1..][0] == s[|s| - |t| + 1];
    } else {
      assert t == [] || t[0] == s[|s| - |t|];
    }
  }
}

/**
 * Decimal rendering and parsing of 64-bit integers.
 *
 * Java renders a `long` with `Long.toString` whenever it is concatenated into a
 * key or a token, and Redis parses a stored string back into a 64-bit integer
 * before INCR (its `string2ll`: optional '-', no leading zeros, "-0" refused,
 * range of a signed 64-bit integer).
 */
module Decimal {
  import opened Base

  const MinLong: int := -0x8000_0000_0000_0000
  const MaxLong: int := 0x7FFF_FFFF_FFFF_FFFF

  predicate IsDigit(c: char) { '0' <= c <= '9' }

  predicate AllDigits(s: string) { forall i :: 0 <= i < |s| ==> IsDigit(s[i]) }

  function DigitChar(d: nat): (c: char)
    requires d < 10
    ensures IsDigit(c)
    ensures DigitValue(c) == d
  {
    (('0' as int) + d) as char
  }

  function DigitValue(c: char): (d: nat)
    requires IsDigit(c)
    ensures d < 10
  {
    (c as int) - ('0' as int)
  }

  /** `Long.toString` of a non-negative value. */
  function NatToString(n: nat): (s: string)
    decreases n
  {
    if n < 10 then [DigitChar(n)] else NatToString(n / 10) + [DigitChar(n % 10)]
  }

  /** `Long.toString`: a '-' sign before the digits of a negative value. */
  function IntToString(n: int): string {
    if n < 0 then "-" + NatToString(-n) else NatToString(n)
  }

  /** The value of a string of decimal digits, most significant first. */
  function DigitsValue(s: string): nat
    requires AllDigits(s)
  {
    if s == [] then 0 else 10 * DigitsValue(s[..|s| - 1]) + DigitValue(s[|s| - 1])
  }

  /** Digits as Redis accepts them: "0", or a non-empty run not starting with '0'. */
  predicate CanonicalDigits(s: string) {
    && |s| >= 1
    && AllDigits(s)
    && (s[0] == '0' ==> |s| == 1)
  }

  /** Redis `string2ll`: the value of `s`, or None where Redis refuses it. */
  function ParseInt(s: string): Option<int> {
    if |s| >= 2 && s[0] == '-' && CanonicalDigits(s[1..]) && s[1] != '0' then
      var v := -(DigitsValue(s[1..]) as int);
      if MinLong <= v then Some(v) else None
    else if CanonicalDigits(s) then
      var v := DigitsValue(s);
      if v <= MaxLong then Some(v) else None
    else None
  }

  /** The decimal rendering of a natural number is a canonical digit string with that value. */
  lemma {:induction false} NatToStringDigits(n: nat)
    ensures CanonicalDigits(NatToString(n))
    ensures DigitsValue(NatToString(n)) == n
    ensures NatToString(n)[0] == '0' <==> n == 0
    decreases n
  {
    var s := NatToString(n);
    if n >= 10 {
      NatToStringDigits(n / 10);
      var p := NatToString(n / 10);
      assert s == p + [DigitChar(n % 10)];
      assert s[..|s| - 1] == p;
      assert s[0] == p[0];
    }
  }

  /** Redis parses back every 64-bit value Java renders. */
  lemma ParseIntToString(n: int)
    requires MinLong <= n <= MaxLong
    ensures ParseInt(IntToString(n)) == Some(n)
  {
    if n < 0 {
      ParseNegative(n);
    } else {
      NatToStringDigits(n);
    }
  }

  lemma ParseNegative(n: int)
    requires MinLong <= n < 0
    ensures ParseInt(IntToString(n)) == Some(n)
  {
    NatToStringDigits(-n);
    var s := IntToString(n);
    assert s[1..] == NatToString(-n);
    assert s[1] != '0';
  }

  /** Only the canonical rendering parses: ParseInt(s) == Some(n) exactly when s is n's rendering. */
  lemma ParseIntCanonical(s: string, n: int)
    requires MinLong <= n <= MaxLong
    ensures ParseInt(s) == Some(n) <==> s == IntToString(n)
  {
    if s == IntToString(n) {
      ParseIntToString(n);
    }
    if ParseInt(s) == Some(n) {
      if |s| >= 2 && s[0] == '-' && CanonicalDigits(s[1..]) && s[1] != '0' {
        DigitsRender(s[1..]);
        assert s == "-" + s[1..];
        assert DigitsValue(s[1..]) != 0 by { DigitsPositive(s[1..]); }
      } else {
        DigitsRender(s);
      }
    }
  }

  /** A canonical digit string is the rendering of its own value. */
  lemma {:induction false} DigitsRender(s: string)
    requires CanonicalDigits(s)
    ensures NatToString(DigitsValue(s)) == s
    decreases |s|
  {
    if |s| >= 2 {
      var p := s[..|s| - 1];
      assert CanonicalDigits(p);
      DigitsPositive(p);
      DigitsRender(p);
      var v := DigitsValue(s);
      assert v == 10 * DigitsValue(p) + DigitValue(s[|s| - 1]);
      assert v / 10 == DigitsValue(p) && v % 10 == DigitValue(s[|s| - 1]);
      assert DigitChar(v % 10) == s[|s| - 1];
      assert s == p + [s[|s| - 1]];
    } else {
      assert DigitChar(DigitValue(s[0])) == s[0];
    }
  }

  /** A digit string that does not start with '0' has a positive value. */
  lemma {:induction false} DigitsPositive(s: string)
    requires |s| >= 1 && AllDigits(s) && s[0] != '0'
    ensures DigitsValue(s) >= 1
    decreases |s|
  {
    if |s| >= 2 {
      var p := s[..|s| - 1];
      assert p[0] == s[0];
      DigitsPositive(p);
    }
  }

  /** Distinct 64-bit values render to distinct strings. */
  lemma IntToStringInjective(a: int, b: int)
    requires MinLong <= a <= MaxLong && MinLong <= b <= MaxLong
    ensures IntToString(a) == IntToString(b) ==> a == b
  {
    ParseIntToString(a);
    ParseIntToString(b);
  }
}

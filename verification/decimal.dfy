/**
 This module models the conversion of an integer-valued JavaScript Number to
 a string (Number::toString, section 6.1.6.1.20 of ECMA-262, radix 10),
 which is what `String.prototype.concat` applies to the amount a gateway
 receives. For integers it yields the decimal digits with no leading zero,
 preceded by `-` when the value is negative. `ParseDecimal` is its inverse on
 canonical renderings.
 */
module Decimal {
  import opened Wrappers

  predicate IsDigit(c: char) {
    '0' <= c <= '9'
  }

  predicate AllDigits(s: string) {
    forall i :: 0 <= i < |s| ==> IsDigit(s[i])
  }

  /** A non-empty digit string without a redundant leading zero. */
  predicate CanonicalNat(s: string) {
    |s| >= 1 && AllDigits(s) && (s[0] == '0' ==> |s| == 1)
  }

  /** The shape of an integer rendering: a canonical digit string, or `-`
      followed by a canonical digit string other than "0". */
  predicate WellFormedInt(s: string) {
    || CanonicalNat(s)
    || (|s| >= 2 && s[0] == '-' && CanonicalNat(s[1..]) && s[1..] != "0")
  }

  function DigitChar(d: nat): (c: char)
    requires d < 10
    ensures IsDigit(c)
  {
    ('0' as int + d) as char
  }

  function DigitValue(c: char): (d: nat)
    requires IsDigit(c)
    ensures d < 10 && DigitChar(d) == c
  {
    c as int - '0' as int
  }

  /** The value of a digit string read in base 10, most significant first. */
  function DigitsValue(s: string): nat
    requires AllDigits(s)
  {
    if |s| == 0 then 0
    else DigitsValue(s[..|s| - 1]) * 10 + DigitValue(s[|s| - 1])
  }

  /** Decimal rendering of a non-negative integer. */
  function NatToDecimal(n: nat): (r: string)
    ensures CanonicalNat(r)
    ensures r == "0" <==> n == 0
    decreases n
  {
    if n < 10 then [DigitChar(n)]
    else NatToDecimal(n / 10) + [DigitChar(n % 10)]
  }

  /** Decimal rendering of an integer, as JavaScript renders an integral Number. */
  function IntToDecimal(n: int): (r: string)
    ensures WellFormedInt(r)
    ensures r[0] == '-' <==> n < 0
  {
    if n < 0 then "-" + NatToDecimal(-n) else NatToDecimal(n)
  }

  /** Reads back a canonical integer rendering; any other string is refused. */
  function ParseDecimal(s: string): (r: Option<int>)
    ensures r.Some? <==> WellFormedInt(s)
  {
    if |s| >= 2 && s[0] == '-' && CanonicalNat(s[1..]) && s[1..] != "0" then
      Some(-(DigitsValue(s[1..]) as int))
    else if CanonicalNat(s) then
      Some(DigitsValue(s))
    else
      None
  }

  lemma DigitsValueAppend(s: string, c: char)
    requires AllDigits(s) && IsDigit(c)
    ensures AllDigits(s + [c])
    ensures DigitsValue(s + [c]) == DigitsValue(s) * 10 + DigitValue(c)
  {
    assert (s + [c])[..|s|] == s;
  }

  /** A digit string that does not start with '0' denotes a positive number. */
  lemma {:induction false} LeadingDigitPositive(s: string)
    requires |s| >= 1 && AllDigits(s) && s[0] != '0'
    ensures DigitsValue(s) >= 1
    decreases |s|
  {
    if |s| > 1 {
      var p := s[..|s| - 1];
      assert p[0] == s[0];
      LeadingDigitPositive(p);
    }
  }

  /** Reading the rendering of n gives back n. */
  lemma {:induction false} NatRoundTrip(n: nat)
    ensures DigitsValue(NatToDecimal(n)) == n
    decreases n
  {
    if n < 10 {
      assert NatToDecimal(n)[..0] == [];
    } else {
      NatRoundTrip(n / 10);
      DigitsValueAppend(NatToDecimal(n / 10), DigitChar(n % 10));
    }
  }

  /** Rendering the value of a canonical digit string gives back the string. */
  lemma {:induction false} CanonicalRoundTrip(s: string)
    requires CanonicalNat(s)
    ensures NatToDecimal(DigitsValue(s)) == s
    decreases |s|
  {
    if |s| == 1 {
      assert s[..0] == [];
      assert s == [s[0]];
    } else {
      var p, c := s[..|s| - 1], s[|s| - 1];
      assert s == p + [c];
      assert p[0] == s[0];
      LeadingDigitPositive(p);
      CanonicalRoundTrip(p);
      var n := DigitsValue(s);
      assert n == DigitsValue(p) * 10 + DigitValue(c);
      assert n / 10 == DigitsValue(p) && n % 10 == DigitValue(c);
    }
  }

  /** Parsing undoes rendering for every integer. */
  lemma IntRoundTrip(n: int)
    ensures ParseDecimal(IntToDecimal(n)) == Some(n)
  {
    var s := IntToDecimal(n);
    if n < 0 {
      var t := NatToDecimal(-n);
      assert s[0] == '-' && s[1..] == t;
      assert CanonicalNat(t) && t != "0";
      NatRoundTrip(-n);
      assert ParseDecimal(s) == Some(-(DigitsValue(t) as int));
    } else {
      assert s[0] != '-';
      NatRoundTrip(n);
    }
  }

  /** Rendering undoes parsing: the only string read as n is n's rendering. */
  lemma ParseSound(s: string)
    requires ParseDecimal(s).Some?
    ensures IntToDecimal(ParseDecimal(s).value) == s
  {
    if |s| >= 2 && s[0] == '-' && CanonicalNat(s[1..]) && s[1..] != "0" {
      CanonicalRoundTrip(s[1..]);
      assert DigitsValue(s[1..]) != 0;
      assert s == "-" + s[1..];
    } else {
      CanonicalRoundTrip(s);
    }
  }

  /** Distinct integers have distinct renderings. */
  lemma IntToDecimalInjective(a: int, b: int)
    ensures IntToDecimal(a) == IntToDecimal(b) <==> a == b
  {
    IntRoundTrip(a);
    IntRoundTrip(b);
  }
}

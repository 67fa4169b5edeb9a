/**
 * Decimal rendering of integers, as Go's strconv.Itoa does it, together with
 * a reference parser that reads such a rendering back.
 */
module Strconv {
  import opened Wrappers

  predicate IsDigit(c: char) {
    '0' <= c <= '9'
  }

  predicate AllDigits(s: string) {
    forall k :: 0 <= k < |s| ==> IsDigit(s[k])
  }

  function DigitValue(c: char): (d: nat)
    requires IsDigit(c)
    ensures d < 10
  {
    c as int - '0' as int
  }

  function DigitChar(d: nat): (c: char)
    requires d < 10
    ensures IsDigit(c) && DigitValue(c) == d
  {
    ('0' as int + d) as char
  }

  /**
   * The shape strconv.Itoa produces: "0", or an optional minus sign followed
   * by a non-empty run of digits that does not start with '0'.
   */
  predicate Canonical(s: string) {
    s == "0" ||
    (|s| > 0 && s[0] != '-' && AllDigits(s) && s[0] != '0') ||
    (|s| > 1 && s[0] == '-' && AllDigits(s[1..]) && s[1] != '0')
  }

  /** The decimal digits of n, most significant first. */
  function NatToDecimal(n: nat): (s: string)
    ensures |s| > 0 && AllDigits(s)
    ensures s[0] == '0' <==> n == 0
    ensures n == 0 ==> |s| == 1
    decreases n
  {
    if n < 10 then [DigitChar(n)] else NatToDecimal(n / 10) + [DigitChar(n % 10)]
  }

  /** strconv.Itoa: a minus sign for negative values, then the digits of the magnitude. */
  function Itoa(i: int): (s: string)
    ensures Canonical(s)
    ensures s[0] == '-' <==> i < 0
  {
    if i < 0 then "-" + NatToDecimal(-i) else NatToDecimal(i)
  }

  /** The value of a run of decimal digits (0 for the empty run). */
  function DigitsValue(s: string): nat
    requires AllDigits(s)
    decreases |s|
  {
    if s == [] then 0 else DigitsValue(s[..|s| - 1]) * 10 + DigitValue(s[|s| - 1])
  }

  /**
   * Reference parser for decimal integers: an optional minus sign followed by
   * at least one digit. Anything else is rejected.
   */
  function ParseDecimal(s: string): Option<int> {
    if |s| > 1 && s[0] == '-' && AllDigits(s[1..]) then Some(0 - DigitsValue(s[1..]) as int)
    else if |s| > 0 && AllDigits(s) then Some(DigitsValue(s))
    else None
  }

  lemma {:induction false} DigitsOfNat(n: nat)
    ensures DigitsValue(NatToDecimal(n)) == n
    decreases n
  {
    if n >= 10 {
      DigitsOfNat(n / 10);
      var s := NatToDecimal(n);
      assert s[..|s| - 1] == NatToDecimal(n / 10);
    }
  }

  /** Parsing what Itoa renders gives back the number. */
  lemma ItoaRoundTrip(i: int)
    ensures ParseDecimal(Itoa(i)) == Some(i)
  {
    if i < 0 {
      DigitsOfNat(-i);
      assert Itoa(i)[1..] == NatToDecimal(-i);
    } else {
      DigitsOfNat(i);
    }
  }

  /** Itoa never renders two different numbers the same way. */
  lemma ItoaInjective(i: int, j: int)
    ensures Itoa(i) == Itoa(j) ==> i == j
  {
    ItoaRoundTrip(i);
    ItoaRoundTrip(j);
  }

  lemma {:induction false} LeadingDigitPositive(s: string)
    requires |s| > 0 && AllDigits(s) && s[0] != '0'
    ensures DigitsValue(s) > 0
    decreases |s|
  {
    if |s| > 1 {
      LeadingDigitPositive(s[..|s| - 1]);
    }
  }

  lemma {:induction false} NatOfDigits(s: string)
    requires |s| > 0 && AllDigits(s) && (s[0] != '0' || |s| == 1)
    ensures NatToDecimal(DigitsValue(s)) == s
    decreases |s|
  {
    var p := s[..|s| - 1];
    if |s| > 1 {
      NatOfDigits(p);
      LeadingDigitPositive(p);
      var v := DigitsValue(s);
      assert v / 10 == DigitsValue(p) && v % 10 == DigitValue(s[|s| - 1]);
      assert s == p + [s[|s| - 1]];
    } else {
      assert s == [s[0]];
    }
  }

  /**
   * The other direction of the round trip: a canonical rendering that parses
   * to i is exactly Itoa(i), so every canonical decimal is Itoa's output.
   */
  lemma ParseRoundTrip(s: string, i: int)
    requires Canonical(s) && ParseDecimal(s) == Some(i)
    ensures Itoa(i) == s
  {
    if s[0] == '-' {
      var m := s[1..];
      NatOfDigits(m);
      LeadingDigitPositive(m);
      assert s == "-" + m;
    } else {
      NatOfDigits(s);
    }
  }
}

/**
 * Decimal text of an integer, as produced both by `std::to_string` on an
 * integral value and by `operator<<` on an `std::ostream` with default flags:
 * an optional minus sign, then the digits, most significant first, without
 * leading zeros.
 */
module Decimal {

  predicate IsDigit(c: char) { '0' <= c <= '9' }

  function DigitChar(d: nat): (c: char)
    requires d < 10
    ensures IsDigit(c) && c as int - '0' as int == d
  {
    (('0' as int) + d) as char
  }

  /** Digits of a natural number, most significant first. */
  function NatDigits(n: nat): (s: string)
    ensures |s| > 0
    ensures forall i :: 0 <= i < |s| ==> IsDigit(s[i])
    ensures |s| == 1 <==> n < 10
    ensures |s| > 1 ==> s[0] != '0'
  {
    if n < 10 then [DigitChar(n)] else NatDigits(n / 10) + [DigitChar(n % 10)]
  }

  /** `std::to_string(n)` and `oss << n` for an integral `n`. */
  function DecimalText(n: int): string
  {
    if n < 0 then "-" + NatDigits(-n) else NatDigits(n)
  }

  /** Reads back a string of digits; the reference inverse of NatDigits. */
  function ParseNat(s: string): nat
    requires forall i :: 0 <= i < |s| ==> IsDigit(s[i])
  {
    if s == [] then 0
    else
      assert IsDigit(s[|s| - 1]);
      ParseNat(s[..|s| - 1]) * 10 + (s[|s| - 1] as int - '0' as int)
  }

  /** Reads back an optionally signed decimal numeral. */
  function ParseDecimal(s: string): int
    requires |s| > 0
    requires forall i :: 0 < i < |s| ==> IsDigit(s[i])
    requires s[0] == '-' || IsDigit(s[0])
  {
    if s[0] == '-' then 0 - ParseNat(s[1..]) as int else ParseNat(s)
  }

  lemma {:induction false} NatDigitsRoundTrip(n: nat)
    ensures ParseNat(NatDigits(n)) == n
  {
    if n >= 10 {
      NatDigitsRoundTrip(n / 10);
      var s := NatDigits(n);
      assert s[..|s| - 1] == NatDigits(n / 10);
    }
  }

  /** Decimal text is never empty, is a numeral, and reads back as the number it prints. */
  lemma DecimalRoundTrip(n: int)
    ensures |DecimalText(n)| > 0
    ensures DecimalText(n)[0] == '-' <==> n < 0
    ensures forall i :: 0 < i < |DecimalText(n)| ==> IsDigit(DecimalText(n)[i])
    ensures IsDigit(DecimalText(n)[0]) || DecimalText(n)[0] == '-'
    ensures ParseDecimal(DecimalText(n)) == n
  {
    NatDigitsRoundTrip(if n < 0 then -n else n);
    if n < 0 {
      assert DecimalText(n)[1..] == NatDigits(-n);
    }
  }

  /** Two integers print the same only if they are equal. */
  lemma DecimalInjective(m: int, n: int)
    requires DecimalText(m) == DecimalText(n)
    ensures m == n
  {
    DecimalRoundTrip(m);
    DecimalRoundTrip(n);
  }
}

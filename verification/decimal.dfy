/**
 * The `%.0f` conversion used by `String(format:)`: the value is rounded to the
 * nearest whole number, ties going to the even neighbour, and written in decimal
 * with a leading '-' for negative inputs (so that -0.3 prints as "-0", as the C
 * library does). Values are exact reals; the binary representation of a Double
 * is not modelled.
 */
module Decimal {

  predicate IsDigit(c: char) {
    '0' <= c <= '9'
  }

  predicate AllDigits(s: string) {
    forall i :: 0 <= i < |s| ==> IsDigit(s[i])
  }

  function DigitChar(d: nat): (c: char)
    requires d < 10
    ensures IsDigit(c)
    ensures (c as int) - ('0' as int) == d
  {
    ('0' as int + d) as char
  }

  function DigitValue(c: char): (d: nat)
    requires IsDigit(c)
    ensures d < 10
    ensures DigitChar(d) == c
  {
    (c as int) - ('0' as int)
  }

  /** Decimal digits of `n`, most significant first, without leading zeros. */
  function NatToDigits(n: nat): (s: string)
    ensures 1 <= |s|
    ensures AllDigits(s)
    ensures n > 0 ==> s[0] != '0'
    ensures n == 0 <==> s == "0"
    decreases n
  {
    if n < 10 then [DigitChar(n)] else NatToDigits(n / 10) + [DigitChar(n % 10)]
  }

  /** The number a string of decimal digits denotes. */
  function DigitsValue(s: string): nat
    requires AllDigits(s)
    decreases |s|
  {
    if |s| == 0 then 0 else 10 * DigitsValue(s[..|s| - 1]) + DigitValue(s[|s| - 1])
  }

  /** Reading back the printed digits gives the number that was printed. */
  lemma {:induction false} DigitsRoundTrip(n: nat)
    ensures DigitsValue(NatToDigits(n)) == n
    decreases n
  {
    var s := NatToDigits(n);
    if n >= 10 {
      DigitsRoundTrip(n / 10);
      assert s[..|s| - 1] == NatToDigits(n / 10);
      assert s[|s| - 1] == DigitChar(n % 10);
    }
  }

  /** Two numbers print the same digits only when they are equal. */
  lemma DigitsInjective(m: nat, n: nat)
    requires NatToDigits(m) == NatToDigits(n)
    ensures m == n
  {
    DigitsRoundTrip(m);
    DigitsRoundTrip(n);
  }

  function Abs(x: real): (a: real)
    ensures a >= 0.0
    ensures a == x || a == -x
  {
    if x < 0.0 then -x else x
  }

  /** Round to nearest, ties to even: the rounding `%.0f` applies. */
  function RoundHalfEven(x: real): (r: int)
    ensures Abs(r as real - x) <= 0.5
    ensures Abs(r as real - x) == 0.5 ==> r % 2 == 0
    ensures x >= 0.0 ==> r >= 0
  {
    var f := x.Floor;
    var frac := x - f as real;
    if frac < 0.5 then f
    else if frac > 0.5 then f + 1
    else if f % 2 == 0 then f
    else f + 1
  }

  /** No integer is strictly closer to `x` than the rounded value. */
  lemma RoundIsNearest(x: real, k: int)
    ensures Abs(RoundHalfEven(x) as real - x) <= Abs(k as real - x)
  {
    var r := RoundHalfEven(x);
    if k != r {
      assert k <= r - 1 || k >= r + 1;
    }
  }

  /** `String(format: "%.0f", x)`. */
  function FormatFixed0(x: real): (s: string)
    ensures 1 <= |s|
    ensures s[0] == '-' <==> x < 0.0
    ensures x < 0.0 ==> AllDigits(s[1..]) && DigitsValue(s[1..]) == RoundHalfEven(-x)
    ensures x >= 0.0 ==> AllDigits(s) && DigitsValue(s) == RoundHalfEven(x)
    ensures x < 0.0 ==> 2 <= |s| && (s[1] == '0' ==> |s| == 2)
    ensures x >= 0.0 ==> (s[0] == '0' ==> |s| == 1)
  {
    if x < 0.0 then
      DigitsRoundTrip(RoundHalfEven(-x));
      "-" + NatToDigits(RoundHalfEven(-x))
    else
      DigitsRoundTrip(RoundHalfEven(x));
      NatToDigits(RoundHalfEven(x))
  }
}

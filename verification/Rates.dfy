/** Ratios stored with four decimals. */
module Rates {
  /** numerator / denominator rounded half up to four decimals, in ten-thousandths. */
  function HalfUp4(numerator: nat, denominator: nat): nat
    requires denominator > 0
  {
    (2 * 10000 * numerator + denominator) / (2 * denominator)
  }

  lemma QuotientBelow(x: nat, d: nat, q: nat)
    requires d > 0 && x < q * d
    ensures x / d < q
  {}

  lemma RateIsAFraction(numerator: nat, denominator: nat)
    requires 0 < denominator && numerator <= denominator
    ensures HalfUp4(numerator, denominator) <= 10000
  {
    QuotientBelow(2 * 10000 * numerator + denominator, 2 * denominator, 10001);
  }

  /** The rate is the ten-thousandth nearest to the ratio, the larger of two. */
  lemma HalfUpIsNearest(numerator: nat, denominator: nat, q: int)
    requires denominator > 0
    ensures q == HalfUp4(numerator, denominator)
            <==> (2 * q - 1) * denominator <= 20000 * numerator < (2 * q + 1) * denominator
  {
    var d, x := 2 * denominator, 20000 * numerator + denominator;
    QuotientIs(x, d, q);
    assert (2 * q - 1) * denominator == q * d - denominator;
    assert (2 * q + 1) * denominator == q * d + d - denominator;
  }

  lemma QuotientIs(x: nat, d: nat, q: int)
    requires d > 0
    ensures q == x / d <==> q * d <= x < q * d + d
  {
    var e := x / d;
    assert e * d <= x < e * d + d;
    if q < e { MultipleBelow(q, e, d); }
    if q > e { MultipleBelow(e, q, d); }
  }

  lemma MultipleBelow(a: int, b: int, d: nat)
    requires a < b
    ensures a * d + d <= b * d
  {
    var c := b - a - 1;
    assert b * d == a * d + d + c * d;
  }
}

/**
 * The protocol's Decimal numbers: unsigned fixed-point values with 18 decimals,
 * stored as the integer value * 10^18. Every operation truncates.
 */
module FixedPoint {

  /** 10^18, the fixed-point unit. */
  const BASE: nat := 1_000_000_000_000_000_000

  /** Basis points in a whole (BASIS_POINTS_GRANULARITY): discount, buffer and allocation ratios are fractions of this. */
  const GRANULARITY: nat := 10_000

  /** Decimal.ratio(a, b): the fixed-point number a / b, rounded down. */
  function Ratio(a: nat, b: nat): (r: nat)
    requires b > 0
    ensures r * b <= a * BASE < (r + 1) * b
  {
    a * BASE / b
  }

  /** Decimal.mul(d, n).asUint256(): the whole part of n times the fixed-point number d. */
  function MulTrunc(d: nat, n: nat): (r: nat)
    ensures r * BASE <= d * n < (r + 1) * BASE
  {
    d * n / BASE
  }

  lemma MulLeft(a: nat, b: nat, k: nat)
    requires a <= b
    ensures a * k <= b * k
  {
  }

  lemma DivBase(x: nat, y: nat)
    requires x <= y
    ensures x / BASE <= y / BASE
  {
  }

  /** Truncated multiplication grows with both of its arguments. */
  lemma MulTruncMonotone(d1: nat, d2: nat, n1: nat, n2: nat)
    requires d1 <= d2 && n1 <= n2
    ensures MulTrunc(d1, n1) <= MulTrunc(d2, n2)
  {
    MulLeft(d1, d2, n1);
    MulLeft(n1, n2, d2);
    DivBase(d1 * n1, d2 * n2);
  }

  /** A ratio with a numerator at least its denominator is at least one. */
  lemma RatioAtLeastOne(a: nat, b: nat)
    requires 0 < b <= a
    ensures Ratio(a, b) >= BASE
  {
    var r := Ratio(a, b);
    if r < BASE {
      MulLeft(r + 1, BASE, b);
      MulLeft(b, a, BASE);
      assert false;
    }
  }

  /** A ratio with a numerator at most its denominator is at most one. */
  lemma RatioAtMostOne(a: nat, b: nat)
    requires 0 < b && a <= b
    ensures Ratio(a, b) <= BASE
  {
    var r := Ratio(a, b);
    if r > BASE {
      MulLeft(BASE + 1, r, b);
      MulLeft(a, b, BASE);
      assert false;
    }
  }
}

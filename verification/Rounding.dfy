/**
  Round-half-away-from-zero on exact rationals, standing in for
  `math.Round` over `float64`.  A value is a fraction `n / d` with `d > 0`.
 */
module Rounding {

  /** `n / d` rounded to the nearest integer, ties upwards. */
  function RoundDiv(n: nat, d: nat): nat
    requires d > 0
  {
    (2 * n + d) / (2 * d)
  }

  /** Round half away from zero for either sign of the numerator. */
  function RoundHalfAway(n: int, d: nat): int
    requires d > 0
  {
    if n >= 0 then RoundDiv(n, d) else -(RoundDiv(-n, d) as int)
  }

  /** The result is within half a unit of `n / d`, and above rather than below at a tie. */
  lemma RoundDivBounds(n: nat, d: nat)
    requires d > 0
    ensures 2 * n - d < 2 * (d * RoundDiv(n, d)) <= 2 * n + d
  {
    var r := RoundDiv(n, d);
    assert 2 * (d * r) == 2 * d * r <= 2 * n + d < 2 * d * r + 2 * d;
  }

  lemma RoundHalfAwayBounds(n: int, d: nat)
    requires d > 0
    ensures 2 * n - d <= 2 * (d * RoundHalfAway(n, d)) <= 2 * n + d
  {
    if n >= 0 {
      RoundDivBounds(n, d);
    } else {
      RoundDivBounds(-n, d);
      var m: int := RoundDiv(-n, d);
      assert d * -m == -(d * m);
    }
  }

  /** Nearest, and away from zero at a tie: no other integer is. */
  lemma RoundHalfAwayIff(n: int, d: nat, r: int)
    requires d > 0
    ensures r == RoundHalfAway(n, d) <==>
              if n >= 0 then 2 * n - d < 2 * (d * r) <= 2 * n + d else 2 * n - d <= 2 * (d * r) < 2 * n + d
  {
    var q := RoundHalfAway(n, d);
    if n >= 0 {
      RoundDivBounds(n, d);
    } else {
      RoundDivBounds(-n, d);
      assert d * q == -(d * -q);
    }
    if r < q {
      MulGap(d, r, q);
    } else if q < r {
      MulGap(d, q, r);
    }
  }

  /** No other integer is within those bounds. */
  lemma RoundDivUnique(n: nat, d: nat, r: nat)
    requires d > 0
    requires 2 * n - d < 2 * (d * r) <= 2 * n + d
    ensures r == RoundDiv(n, d)
  {
    RoundDivBounds(n, d);
    var q := RoundDiv(n, d);
    if r < q {
      MulGap(d, r, q);
    } else if q < r {
      MulGap(d, q, r);
    }
  }

  lemma MulGap(d: nat, x: int, y: int)
    requires x < y
    ensures d * x + d <= d * y
  {
    assert d * y == d * x + d * (y - x);
    assert d * (y - x) >= d * 1 by { MulMonotone(d, 1, y - x); }
  }

  lemma MulMonotone(d: nat, x: int, y: int)
    requires x <= y
    ensures d * x <= d * y
  {
    assert d * y - d * x == d * (y - x);
    assert d * (y - x) >= 0;
  }

  lemma RoundDivMonotone(n: nat, m: nat, d: nat)
    requires d > 0 && n <= m
    ensures RoundDiv(n, d) <= RoundDiv(m, d)
  {
    RoundDivBounds(n, d);
    RoundDivBounds(m, d);
    var a, b := RoundDiv(n, d), RoundDiv(m, d);
    if b < a {
      MulGap(d, b, a);
    }
  }

  /** Adding a whole number commutes with rounding. */
  lemma RoundDivShift(n: nat, k: nat, d: nat)
    requires d > 0
    ensures RoundDiv(n + d * k, d) == RoundDiv(n, d) + k
  {
    RoundDivBounds(n, d);
    var q := RoundDiv(n, d);
    assert d * (q + k) == d * q + d * k;
    RoundDivUnique(n + d * k, d, q + k);
  }

  lemma RoundDivExact(k: nat, d: nat)
    requires d > 0
    ensures RoundDiv(d * k, d) == k
  {
    RoundDivUnique(d * k, d, k);
  }
}

/**
  When racing refunds reverse exactly the tax they should
  (internal/service/credit_note.go:41-70): each posts the slice between the
  prior total it read and that total plus its own amount, so the slices are
  exact, whatever the invoice, precisely when these intervals tile.
 */
module TaxTiling {
  import opened Rounding
  import opened TaxAllocation

  /** How many refunds took the `m`-th unit of money to be theirs. */
  function Covered(rs: seq<Racing>, m: nat): nat {
    if rs == [] then 0 else (if rs[0].prior < m <= rs[0].prior + rs[0].amount then 1 else 0) + Covered(rs[1..], m)
  }

  /** By how much that differs from once for every unit refunded, and never for any other. */
  function Defect(rs: seq<Racing>, m: nat): int {
    Covered(rs, m) - (if 0 < m <= RacingTotal(rs) then 1 else 0)
  }

  /** Laid in some order, what the refunds read and their own amounts follow each other from 0 to the total. */
  ghost predicate Tiles(rs: seq<Racing>) {
    forall m: nat :: Defect(rs, m) == 0
  }

  /** The tax of the `m`-th unit of money. */
  function UnitTax(m: nat, tax: int, total: int): int
    requires m > 0
  {
    RefundTaxPortion(m, tax, total) - RefundTaxPortion(m - 1, tax, total)
  }

  // ---- The difference, unit by unit ----

  /** The tax of the units up to `n`, each as often as it is covered. */
  function CoveredTax(rs: seq<Racing>, n: nat, tax: int, total: int): int {
    if n == 0 then 0 else CoveredTax(rs, n - 1, tax, total) + Covered(rs, n) * UnitTax(n, tax, total)
  }

  function IntervalTax(from: nat, to: nat, n: nat, tax: int, total: int): int {
    if n == 0 then 0
    else IntervalTax(from, to, n - 1, tax, total) + (if from < n <= to then UnitTax(n, tax, total) else 0)
  }

  function Least(x: int, y: int): int {
    if x < y then x else y
  }

  /** An interval's units add up to the difference of the two portions. */
  lemma {:induction false} IntervalIsSlice(from: nat, to: nat, n: nat, tax: int, total: int)
    requires from <= to
    ensures IntervalTax(from, to, n, tax, total)
         == RefundTaxPortion(Least(to, n), tax, total) - RefundTaxPortion(Least(from, n), tax, total)
  {
    if n > 0 {
      IntervalIsSlice(from, to, n - 1, tax, total);
    }
  }

  lemma {:induction false} CoveredTaxCons(rs: seq<Racing>, n: nat, tax: int, total: int)
    requires rs != []
    ensures CoveredTax(rs, n, tax, total)
         == IntervalTax(rs[0].prior, rs[0].prior + rs[0].amount, n, tax, total) + CoveredTax(rs[1..], n, tax, total)
  {
    if n > 0 {
      CoveredTaxCons(rs, n - 1, tax, total);
      var own := if rs[0].prior < n <= rs[0].prior + rs[0].amount then 1 else 0;
      Distribute(UnitTax(n, tax, total), own, Covered(rs[1..], n));
    }
  }

  lemma {:induction false} CoveredTaxOfNothing(n: nat, tax: int, total: int)
    ensures CoveredTax([], n, tax, total) == 0
  {
    if n > 0 {
      CoveredTaxOfNothing(n - 1, tax, total);
    }
  }

  /** The slices are the tax of the covered units. */
  lemma {:induction false} SlicesAreCoveredTax(rs: seq<Racing>, n: nat, tax: int, total: int)
    requires ReadsWithin(rs, n)
    ensures RacingSlices(rs, tax, total) == CoveredTax(rs, n, tax, total)
  {
    if rs == [] {
      CoveredTaxOfNothing(n, tax, total);
    } else {
      CoveredTaxCons(rs, n, tax, total);
      IntervalIsSlice(rs[0].prior, rs[0].prior + rs[0].amount, n, tax, total);
      assert ReadsWithin(rs[1..], n);
      SlicesAreCoveredTax(rs[1..], n, tax, total);
    }
  }

  /** The tax of the units up to `n`, each as often as it is covered wrongly. */
  function DefectTax(rs: seq<Racing>, n: nat, tax: int, total: int): int {
    if n == 0 then 0 else DefectTax(rs, n - 1, tax, total) + Defect(rs, n) * UnitTax(n, tax, total)
  }

  lemma {:induction false} DefectTaxIs(rs: seq<Racing>, n: nat, tax: int, total: int)
    ensures DefectTax(rs, n, tax, total)
         == CoveredTax(rs, n, tax, total) - IntervalTax(0, RacingTotal(rs), n, tax, total)
  {
    if n > 0 {
      DefectTaxIs(rs, n - 1, tax, total);
      Distribute(UnitTax(n, tax, total), Covered(rs, n), -(if n <= RacingTotal(rs) then 1 else 0));
    }
  }

  /** What racing refunds reverse too much is the tax of the units that are covered wrongly. */
  lemma ExcessIsDefectTax(rs: seq<Racing>, n: nat, tax: int, total: int)
    requires ReadsWithin(rs, n) && RacingTotal(rs) <= n
    ensures RacingSlices(rs, tax, total) - RefundTaxPortion(RacingTotal(rs), tax, total) == DefectTax(rs, n, tax, total)
  {
    SlicesAreCoveredTax(rs, n, tax, total);
    DefectTaxIs(rs, n, tax, total);
    IntervalIsSlice(0, RacingTotal(rs), n, tax, total);
  }

  // ---- Tiling suffices ----

  lemma {:induction false} NoDefectNoTax(rs: seq<Racing>, n: nat, tax: int, total: int)
    requires Tiles(rs)
    ensures DefectTax(rs, n, tax, total) == 0
  {
    if n > 0 {
      NoDefectNoTax(rs, n - 1, tax, total);
    }
  }

  /** A bound on everything the refunds read and on their total. */
  function Bound(rs: seq<Racing>): nat {
    if rs == [] then 0 else rs[0].prior + rs[0].amount + Bound(rs[1..])
  }

  lemma {:induction false} BoundHolds(rs: seq<Racing>)
    ensures ReadsWithin(rs, Bound(rs)) && RacingTotal(rs) <= Bound(rs)
    ensures forall m: nat :: m > Bound(rs) ==> Covered(rs, m) == 0
  {
    if rs != [] {
      BoundHolds(rs[1..]);
      forall i | 0 <= i < |rs| ensures rs[i].prior + rs[i].amount <= Bound(rs) {
        assert i > 0 ==> rs[i] == rs[1..][i - 1];
      }
    }
  }

  /** When the reads tile, the slices add up to exactly the portion of the total, for any tax and any invoice. */
  lemma TilingIsExact(rs: seq<Racing>, tax: int, total: int)
    requires Tiles(rs)
    ensures RacingSlices(rs, tax, total) == RefundTaxPortion(RacingTotal(rs), tax, total)
  {
    BoundHolds(rs);
    ExcessIsDefectTax(rs, Bound(rs), tax, total);
    NoDefectNoTax(rs, Bound(rs), tax, total);
  }

  // ---- Tiling is necessary ----

  /** With a tax of `t` on a total of `2 * k * t`, the portion steps up at the odd multiples of `k`. */
  lemma PortionOfComb(x: nat, k: nat, t: nat)
    requires k > 0 && t > 0 && x <= 2 * k * t
    ensures RefundTaxPortion(x, t, 2 * k * t) == (x + k) / (2 * k)
  {
    if x == 0 {
      assert k / (2 * k) == 0;
    } else {
      var r := (x + k) / (2 * k);
      CombRound(x, k, t, r);
      RoundDivUnique(x * t, 2 * k * t, r);
      CombCap(x, k, t, r);
    }
  }

  lemma CombRound(x: nat, k: nat, t: nat, r: nat)
    requires k > 0 && t > 0 && r == (x + k) / (2 * k)
    ensures 2 * (x * t) - 2 * k * t < 2 * ((2 * k * t) * r) <= 2 * (x * t) + 2 * k * t
  {
    var q := 2 * k;
    assert q * r <= x + k < q * r + q;
    Scale(t, q * r, x + k);
    Scale(t, x + k + 1, q * r + q);
    assert t * (q * r) == (q * t) * r;
    assert t * (x + k) == x * t + k * t;
    assert t * (x + k + 1) == x * t + k * t + t;
    assert t * (q * r + q) == (q * t) * r + q * t;
  }

  lemma Scale(t: nat, x: int, y: int)
    requires x <= y
    ensures t * x <= t * y
  {
    MulMonotone(t, x, y);
  }

  lemma CombCap(x: nat, k: nat, t: nat, r: nat)
    requires k > 0 && t > 0 && r == (x + k) / (2 * k) && x <= 2 * k * t
    ensures r <= t
  {
    var q := 2 * k;
    assert q * r <= x + k < q * t + q;
    assert q * (t + 1) == q * t + q;
    if r >= t + 1 {
      MulMonotone(q, t + 1, r);
    }
  }

  /** The units below `k` carry no tax then, and the `k`-th carries one. */
  lemma UnitOfComb(m: nat, k: nat, t: nat)
    requires 0 < m <= k && t > 0
    ensures UnitTax(m, t, 2 * k * t) == if m == k then 1 else 0
  {
    CombWide(k, t);
    PortionOfComb(m, k, t);
    PortionOfComb(m - 1, k, t);
    Half(m, k);
    Half(m - 1, k);
  }

  lemma Half(m: nat, k: nat)
    requires m <= k && k > 0
    ensures (m + k) / (2 * k) == if m == k then 1 else 0
  {
    Quotient(m + k, 2 * k, if m == k then 1 else 0);
  }

  lemma Quotient(x: nat, q: nat, r: nat)
    requires q > 0 && q * r <= x < q * r + q
    ensures x / q == r
  {
    var d := x / q;
    assert q * d <= x < q * d + q;
    if d < r {
      MulGap(q, d, r);
    } else if r < d {
      MulGap(q, r, d);
    }
  }

  /** So with no defect above `k`, all that is left of the difference is the defect at `k`. */
  lemma {:induction false} DefectAt(rs: seq<Racing>, k: nat, n: nat, t: nat)
    requires k > 0 && t > 0 && forall m: nat :: m > k ==> Defect(rs, m) == 0
    ensures DefectTax(rs, n, t, 2 * k * t) == if n < k then 0 else Defect(rs, k)
  {
    if n > 0 {
      DefectAt(rs, k, n - 1, t);
      if n <= k {
        UnitOfComb(n, k, t);
      }
    }
  }

  /** The slices are exact for every invoice that the refunds fit into. */
  ghost predicate ExactForAll(rs: seq<Racing>) {
    forall tax: nat, total: nat :: tax <= total && RacingTotal(rs) <= total && ReadsWithin(rs, total) ==>
      RacingSlices(rs, tax, total) == RefundTaxPortion(RacingTotal(rs), tax, total)
  }

  /** From the top down, an exact list has no defect. */
  lemma {:induction false} NoDefectFrom(rs: seq<Racing>, k: nat)
    requires ExactForAll(rs)
    ensures forall m: nat :: m > k ==> Defect(rs, m) == 0
    decreases Bound(rs) - k
  {
    BoundHolds(rs);
    if k < Bound(rs) {
      NoDefectFrom(rs, k + 1);
      NoDefectAt(rs, k + 1);
    }
  }

  lemma CombWide(k: nat, t: nat)
    requires k > 0 && t > 0
    ensures k <= 2 * k * t && t <= 2 * k * t
  {
    MulMonotone(t, 1, 2 * k);
    MulMonotone(2 * k, 1, t);
  }

  lemma ExactAt(rs: seq<Racing>, k: nat, t: nat, n: nat)
    requires ExactForAll(rs) && 0 < k <= n && 0 < t <= n && n == 2 * k * t
    requires forall m: nat :: m > k ==> Defect(rs, m) == 0
    requires ReadsWithin(rs, Bound(rs)) && RacingTotal(rs) <= Bound(rs) < t
    ensures Defect(rs, k) == 0
  {
    WiderReads(rs, Bound(rs), n);
    ExcessIsDefectTax(rs, n, t, n);
    DefectAt(rs, k, n, t);
  }

  lemma NoDefectAt(rs: seq<Racing>, k: nat)
    requires ExactForAll(rs) && 0 < k && forall m: nat :: m > k ==> Defect(rs, m) == 0
    ensures Defect(rs, k) == 0
  {
    BoundHolds(rs);
    var t := Bound(rs) + 1;
    CombWide(k, t);
    ExactAt(rs, k, t, 2 * k * t);
  }

  lemma NothingAtZero(rs: seq<Racing>)
    ensures Covered(rs, 0) == 0
  {
  }

  /** Racing refunds reverse exactly what they should on every invoice they fit into if and only if what they read
      tiles: some order of them is the one in which each would have read the total of those before it. */
  lemma SlicesExactIff(rs: seq<Racing>)
    ensures ExactForAll(rs) <==> Tiles(rs)
  {
    if ExactForAll(rs) {
      NoDefectFrom(rs, 0);
      NothingAtZero(rs);
    }
    if Tiles(rs) {
      forall tax: nat, total: nat
        ensures RacingSlices(rs, tax, total) == RefundTaxPortion(RacingTotal(rs), tax, total) {
        TilingIsExact(rs, tax, total);
      }
    }
  }
}

/**
  Proportional tax on refunds (internal/service/credit_note.go:22-70, 309-327).

  A refund reverses the tax of its invoice in proportion.  A series of refunds
  is allocated by differences of cumulative proportions, so that roundings
  cannot add up.
 */
module TaxAllocation {
  import opened Rounding

  function RefundTaxPortion(amount: int, invoiceTax: int, invoiceTotal: int): (tax: int)
    ensures 0 <= tax
    ensures invoiceTax >= 0 ==> tax <= invoiceTax
    ensures amount <= 0 || invoiceTotal <= 0 ==> tax == 0
  {
    if amount <= 0 || invoiceTax <= 0 || invoiceTotal <= 0 then 0
    else
      var tax := RoundDiv(amount * invoiceTax, invoiceTotal);
      if tax > invoiceTax then invoiceTax else tax
  }

  function RefundTaxSlice(amount: int, priorRefunded: int, invoiceTax: int, invoiceTotal: int): int {
    var prior := if priorRefunded < 0 then 0 else priorRefunded;
    RefundTaxPortion(prior + amount, invoiceTax, invoiceTotal) - RefundTaxPortion(prior, invoiceTax, invoiceTotal)
  }

  /** The slices of a list of refunds issued one after another, summed. */
  function SumSlices(refunds: seq<int>, prior: int, tax: int, total: int): int {
    if refunds == [] then 0
    else RefundTaxSlice(refunds[0], prior, tax, total) + SumSlices(refunds[1..], prior + refunds[0], tax, total)
  }

  function Sum(xs: seq<int>): int {
    if xs == [] then 0 else xs[0] + Sum(xs[1..])
  }

  // ---- One slice ----

  lemma PortionMonotone(a: int, b: int, tax: int, total: int)
    requires a <= b
    ensures RefundTaxPortion(a, tax, total) <= RefundTaxPortion(b, tax, total)
  {
    if a > 0 && tax > 0 && total > 0 {
      MulMonotone(tax, a, b);
      RoundDivMonotone(a * tax, b * tax, total);
    }
  }

  /** Refunding everything (or more) reverses exactly the invoice tax. */
  lemma PortionOfWholeInvoice(amount: int, tax: int, total: int)
    requires amount >= total > 0 && tax >= 0
    ensures RefundTaxPortion(amount, tax, total) == tax
  {
    if tax > 0 {
      RoundDivExact(tax, total);
      MulMonotone(tax, total, amount);
      RoundDivMonotone(total * tax, amount * tax, total);
    }
  }

  /** Another `a` refunded cannot reverse more than `a` of tax. */
  lemma PortionGrowth(p: nat, a: nat, tax: nat, total: nat)
    requires tax <= total
    ensures RefundTaxPortion(p + a, tax, total) <= RefundTaxPortion(p, tax, total) + a
  {
    if a > 0 && tax > 0 {
      MulMonotone(a, tax, total);
      assert (p + a) * tax <= p * tax + total * a;
      RoundDivMonotone((p + a) * tax, p * tax + total * a, total);
      RoundDivShift(p * tax, a, total);
      if p == 0 {
        RoundDivUnique(0, total, 0);
      }
    }
  }

  /** A slice is never negative and never exceeds the refund it belongs to. */
  lemma SliceBounds(amount: nat, prior: int, tax: int, total: int)
    requires 0 <= tax <= total
    ensures 0 <= RefundTaxSlice(amount, prior, tax, total) <= amount
  {
    var p := if prior < 0 then 0 else prior;
    PortionMonotone(p, p + amount, tax, total);
    PortionGrowth(p, amount, tax, total);
  }

  // ---- A series of refunds, one after another ----

  /** The slices telescope: however a total is split, they sum to the portion of the running total. */
  lemma {:induction false} SlicesTelescope(refunds: seq<int>, prior: nat, tax: int, total: int)
    requires forall i :: 0 <= i < |refunds| ==> refunds[i] >= 0
    ensures SumSlices(refunds, prior, tax, total)
         == RefundTaxPortion(prior + Sum(refunds), tax, total) - RefundTaxPortion(prior, tax, total)
  {
    if refunds != [] {
      SlicesTelescope(refunds[1..], prior + refunds[0], tax, total);
    }
  }

  /** No series reverses more tax than the invoice carried, and a series that reaches the invoice total
      reverses exactly its tax, however it was split. */
  lemma SeriesNeverOverReverses(refunds: seq<int>, tax: nat, total: nat)
    requires forall i :: 0 <= i < |refunds| ==> refunds[i] >= 0
    ensures 0 <= SumSlices(refunds, 0, tax, total) <= tax
    ensures total > 0 && Sum(refunds) >= total ==> SumSlices(refunds, 0, tax, total) == tax
  {
    SlicesTelescope(refunds, 0, tax, total);
    if total > 0 && Sum(refunds) >= total {
      PortionOfWholeInvoice(Sum(refunds), tax, total);
    }
  }

  /** Splitting a refund in two does not change what is reversed. */
  lemma SplitInvariance(a: nat, b: nat, prior: nat, tax: int, total: int)
    ensures RefundTaxSlice(a, prior, tax, total) + RefundTaxSlice(b, prior + a, tax, total)
         == RefundTaxSlice(a + b, prior, tax, total)
  {
  }

  // ---- Refunds that race ----

  /** The portion, while the cap is idle, is within half a unit of the exact share (ties upwards). */
  lemma PortionError(a: nat, tax: nat, total: nat)
    requires a <= total && total > 0
    ensures 2 * a * tax - total < 2 * (total * RefundTaxPortion(a, tax, total)) <= 2 * a * tax + total
  {
    if a > 0 && tax > 0 {
      var r := RoundDiv(a * tax, total);
      RoundDivBounds(a * tax, total);
      MulMonotone(tax, a, total);
      RoundDivMonotone(a * tax, total * tax, total);
      RoundDivExact(tax, total);
      assert RefundTaxPortion(a, tax, total) == r;
    } else {
      assert a * tax == 0;
    }
  }

  /** Whatever prior total a racing refund reads, its slice is strictly within one minor unit of the exact share. */
  lemma RacingSliceWithinOneUnit(amount: nat, prior: nat, tax: nat, total: nat)
    requires prior + amount <= total && total > 0
    ensures amount * tax - total < total * RefundTaxSlice(amount, prior, tax, total) < amount * tax + total
  {
    PortionError(prior + amount, tax, total);
    PortionError(prior, tax, total);
    SliceArithmetic(amount, prior, tax, total,
                    RefundTaxPortion(prior + amount, tax, total), RefundTaxPortion(prior, tax, total));
  }

  lemma SliceArithmetic(amount: nat, prior: nat, tax: nat, total: nat, hi: int, lo: int)
    requires 2 * (prior + amount) * tax - total < 2 * (total * hi) <= 2 * (prior + amount) * tax + total
    requires 2 * prior * tax - total < 2 * (total * lo) <= 2 * prior * tax + total
    ensures amount * tax - total < total * (hi - lo) < amount * tax + total
  {
  }

  /** A refund with the prior total its worker happened to read. */
  datatype Racing = Racing(amount: nat, prior: nat)

  predicate ReadsWithin(rs: seq<Racing>, total: int) {
    forall i :: 0 <= i < |rs| ==> rs[i].prior + rs[i].amount <= total
  }

  function RacingSlices(rs: seq<Racing>, tax: int, total: int): int {
    if rs == [] then 0 else RefundTaxSlice(rs[0].amount, rs[0].prior, tax, total) + RacingSlices(rs[1..], tax, total)
  }

  function RacingTotal(rs: seq<Racing>): nat {
    if rs == [] then 0 else rs[0].amount + RacingTotal(rs[1..])
  }

  /** `n` racing refunds drift, all together, by less than `n` minor units from the exact share. */
  lemma {:induction false} RacingDrift(rs: seq<Racing>, tax: nat, total: nat)
    requires rs != [] && total > 0 && ReadsWithin(rs, total)
    ensures RacingTotal(rs) * tax - |rs| * total
          < total * RacingSlices(rs, tax, total)
          < RacingTotal(rs) * tax + |rs| * total
  {
    var head, rest := RefundTaxSlice(rs[0].amount, rs[0].prior, tax, total), RacingSlices(rs[1..], tax, total);
    var first, others := rs[0].amount, RacingTotal(rs[1..]);
    assert first * tax - total < total * head < first * tax + total by {
      RacingSliceWithinOneUnit(first, rs[0].prior, tax, total);
    }
    assert others * tax - (|rs| - 1) * total <= total * rest <= others * tax + (|rs| - 1) * total by {
      if |rs| == 1 {
        assert rs[1..] == [];
      } else {
        RacingDrift(rs[1..], tax, total);
      }
    }
    AddBounds(total, head, rest, tax, first, others, |rs| - 1);
  }

  lemma AddBounds(total: nat, head: int, rest: int, tax: nat, first: nat, others: nat, n: nat)
    requires first * tax - total < total * head < first * tax + total
    requires others * tax - n * total <= total * rest <= others * tax + n * total
    ensures (first + others) * tax - (n + 1) * total < total * (head + rest) < (first + others) * tax + (n + 1) * total
  {
  }

  lemma Distribute(x: int, y: int, z: int)
    ensures x * (y + z) == (y + z) * x == x * y + x * z
  {
  }

  lemma WiderReads(rs: seq<Racing>, low: int, high: int)
    requires ReadsWithin(rs, low) && low <= high
    ensures ReadsWithin(rs, high)
  {
  }

  lemma OverBound(total: nat, slices: int, refunded: nat, tax: nat, n: nat)
    requires 0 < total && refunded <= total && total * slices < refunded * tax + n * total
    ensures slices <= tax + n - 1
  {
    MulMonotone(tax, refunded, total);
    Distribute(total, tax, n);
    if slices >= tax + n {
      MulMonotone(total, tax + n, slices);
    }
  }

  /** So `n` racing refunds within the invoice total over-reverse its tax by at most `n - 1` units ... */
  lemma RacingOverReversal(rs: seq<Racing>, tax: nat, total: nat)
    requires rs != [] && total > 0 && ReadsWithin(rs, total) && RacingTotal(rs) <= total
    ensures RacingSlices(rs, tax, total) <= tax + |rs| - 1
  {
    RacingDrift(rs, tax, total);
    OverBound(total, RacingSlices(rs, tax, total), RacingTotal(rs), tax, |rs|);
  }

  /** ... and two of them can: each counts the other as already refunded, and together they reverse 2 of a tax of 1. */
  lemma RacingRefundsCanOverReverse()
    ensures ReadsWithin([Racing(2, 1), Racing(1, 2)], 5)
    ensures RacingTotal([Racing(2, 1), Racing(1, 2)]) == 3
    ensures RacingSlices([Racing(2, 1), Racing(1, 2)], 1, 5) == 2
  {
  }

  // ---- IGST, CGST and SGST ----

  /** Summed over the three components, the cumulative portions stay within one unit of the tax portion,
      and agree with it once the invoice is fully refunded. */
  lemma ComponentsTrackPortion(a: nat, igst: nat, cgst: nat, sgst: nat, total: nat)
    requires total > 0
    ensures var parts := RefundTaxPortion(a, igst, total) + RefundTaxPortion(a, cgst, total)
        + RefundTaxPortion(a, sgst, total);
            var whole := RefundTaxPortion(a, igst + cgst + sgst, total);
            && -1 <= parts - whole <= 1
            && (a >= total ==> parts == whole)
  {
    var tax := igst + cgst + sgst;
    if a >= total {
      PortionOfWholeInvoice(a, igst, total);
      PortionOfWholeInvoice(a, cgst, total);
      PortionOfWholeInvoice(a, sgst, total);
      PortionOfWholeInvoice(a, tax, total);
    } else {
      PortionError(a, igst, total);
      PortionError(a, cgst, total);
      PortionError(a, sgst, total);
      PortionError(a, tax, total);
      ComponentArithmetic(a, igst, cgst, sgst, total, RefundTaxPortion(a, igst, total),
          RefundTaxPortion(a, cgst, total),
                          RefundTaxPortion(a, sgst, total), RefundTaxPortion(a, tax, total));
    }
  }

  lemma ComponentArithmetic(a: nat, igst: nat, cgst: nat, sgst: nat, total: nat, i: int, c: int, s: int, w: int)
    requires 2 * a * igst - total < 2 * (total * i) <= 2 * a * igst + total
    requires 2 * a * cgst - total < 2 * (total * c) <= 2 * a * cgst + total
    requires 2 * a * sgst - total < 2 * (total * s) <= 2 * a * sgst + total
    requires 2 * a * (igst + cgst + sgst) - total < 2 * (total * w) <= 2 * a * (igst + cgst + sgst) + total
    ensures -1 <= i + c + s - w <= 1
  {
    Distribute(2 * a, igst + cgst, sgst);
    Distribute(2 * a, igst, cgst);
    var d := i + c + s - w;
    assert total * d == total * i + total * c + total * s - total * w by {
      Distribute(total, i + c + s, -w);
      Distribute(total, i + c, s);
      Distribute(total, i, c);
    }
    assert -4 * total < 2 * (total * d) < 4 * total;
    if d >= 2 { MulMonotone(total, 2, d); }
    if d <= -2 { MulMonotone(total, d, -2); }
  }

  /** One refund's component slices differ from its tax slice by at most two units. */
  lemma ComponentSlicesTrackSlice(amount: nat, prior: int, igst: nat, cgst: nat, sgst: nat, total: nat)
    requires total > 0
    ensures var parts := RefundTaxSlice(amount, prior, igst, total) + RefundTaxSlice(amount, prior, cgst, total)
                       + RefundTaxSlice(amount, prior, sgst, total);
            -2 <= parts - RefundTaxSlice(amount, prior, igst + cgst + sgst, total) <= 2
  {
    var p := if prior < 0 then 0 else prior;
    ComponentsTrackPortion(p + amount, igst, cgst, sgst, total);
    ComponentsTrackPortion(p, igst, cgst, sgst, total);
  }

  /** Over a series of refunds the components stay within one unit, and meet the tax exactly when the invoice
      is fully refunded. */
  lemma ComponentSeriesTracksTax(refunds: seq<int>, igst: nat, cgst: nat, sgst: nat, total: nat)
    requires total > 0
    requires forall i :: 0 <= i < |refunds| ==> refunds[i] >= 0
    ensures var parts := SumSlices(refunds, 0, igst, total) + SumSlices(refunds, 0, cgst, total)
                       + SumSlices(refunds, 0, sgst, total);
            var whole := SumSlices(refunds, 0, igst + cgst + sgst, total);
            && -1 <= parts - whole <= 1
            && (Sum(refunds) >= total ==> parts == whole == igst + cgst + sgst)
  {
    var tax := igst + cgst + sgst;
    SlicesTelescope(refunds, 0, igst, total);
    SlicesTelescope(refunds, 0, cgst, total);
    SlicesTelescope(refunds, 0, sgst, total);
    SlicesTelescope(refunds, 0, tax, total);
    SumNonNegative(refunds);
    ComponentsTrackPortion(Sum(refunds), igst, cgst, sgst, total);
    if Sum(refunds) >= total {
      PortionOfWholeInvoice(Sum(refunds), tax, total);
    }
  }

  lemma SumNonNegative(xs: seq<int>)
    requires forall i :: 0 <= i < |xs| ==> xs[i] >= 0
    ensures Sum(xs) >= 0
  {
  }
}

/**
  How a scheduled invoice's revenue is released, month by month
  (internal/service/revrec.go:68-96, 382-480, 531-569): equal parts, the last
  one with what the division leaves over.
 */
module MonthlyRelease {
  import opened Ledger
  import opened RevenueSchedule
  import opened DeferredBooks
  import opened DeferredBooksInvariant
  import opened BookRuns

  /** A subscription invoice about to be scheduled for the first time. */
  predicate Unscheduled(inv: Invoice) {
    inv.subscription && !inv.active && inv.events == [] && inv.status in {Open, Paid} && inv.notes == []
    && PreTax(inv) > 0
  }

  function Months(months: nat): nat {
    if months < 1 then 1 else months
  }

  /** Scheduling an invoice spreads its pre-tax value evenly over its months, and at least over one. */
  lemma SchedulingSpreads(b: Books, i: nat, months: nat)
    requires i < |b.invoices| && Unscheduled(b.invoices[i])
    ensures var inv, r := b.invoices[i], Next(b, Schedule(i, months, true)).invoices[i];
            && r == inv.(active := true, events := r.events)
            && Even(r.events, PreTax(inv), Months(months), PreTax(inv) / Months(months))
  {
    NextInvoice(b, Schedule(i, months, true), i);
    AllocationIsEven(PreTax(b.invoices[i]), Months(months));
  }

  /** The worker's steps for the first `k` months. */
  function MonthSteps(i: nat, k: nat): seq<Step> {
    if k == 0 then [] else MonthSteps(i, k - 1) + [Claim(i, k - 1), Finish(i, k - 1, true, 0)]
  }

  /** The first `k` events recognized, the others pending. */
  predicate ReleasedTo(es: seq<Event>, was: seq<Event>, k: nat) {
    && |es| == |was| && k <= |es|
    && (forall j :: 0 <= j < k ==> es[j] == was[j].(status := Recognized))
    && (forall j :: k <= j < |es| ==> es[j] == was[j])
  }

  lemma {:induction false} HeldReleased(es: seq<Event>, was: seq<Event>, total: nat, months: nat, a: nat, k: nat)
    requires Even(was, total, months, a) && ReleasedTo(es, was, k) && k < months
    ensures Held(es[..k], Recognized) == k * a && Held(es[k..], Recognized) == 0
  {
    forall j | 0 <= j < k ensures es[..k][j] == Event(a, Recognized) {
    }
    HeldConstant(es[..k], a, Recognized);
    NoneHeld(es[k..], Recognized);
  }

  lemma {:induction false} NoneHeld(es: seq<Event>, st: EventStatus)
    requires forall j :: 0 <= j < |es| ==> es[j].status != st
    ensures Held(es, st) == 0
  {
    if es != [] {
      NoneHeld(es[..|es| - 1], st);
    }
  }

  /** One month: its event is claimed and recognized. */
  lemma MonthRuns(b: Books, i: nat, k: nat)
    requires i < |b.invoices| && k < |b.invoices[i].events| && b.invoices[i].events[k].status == Pending
    ensures var c := Next(Next(b, Claim(i, k)), Finish(i, k, true, 0));
            && i < |c.invoices|
            && c.invoices[i] == b.invoices[i].(events := SetStatus(b.invoices[i].events, k, Recognized))
  {
    var inv := b.invoices[i];
    NextInvoice(b, Claim(i, k), i);
    NextInvoice(Next(b, Claim(i, k)), Finish(i, k, true, 0), i);
    assert SetStatus(SetStatus(inv.events, k, Processing), k, Recognized) == SetStatus(inv.events, k, Recognized);
  }

  lemma {:induction false} MonthsRun(b: Books, i: nat, k: nat)
    requires i < |b.invoices| && k <= |b.invoices[i].events|
    requires forall j :: 0 <= j < k ==> b.invoices[i].events[j].status == Pending
    ensures var c := Run(b, MonthSteps(i, k));
            && i < |c.invoices| && c.invoices[i] == b.invoices[i].(events := c.invoices[i].events)
            && ReleasedTo(c.invoices[i].events, b.invoices[i].events, k)
  {
    if k > 0 {
      MonthsRun(b, i, k - 1);
      var c := Run(b, MonthSteps(i, k - 1));
      var claim, finish := Claim(i, k - 1), Finish(i, k - 1, true, 0);
      RunConcat(b, MonthSteps(i, k - 1), [claim, finish]);
      RunCons(c, claim, [finish]);
      RunCons(Next(c, claim), finish, []);
      assert [claim, finish] == [claim] + [finish] && [finish] == [finish] + [];
      MonthRuns(c, i, k - 1);
    }
  }

  lemma HeldAfterMonths(es: seq<Event>, was: seq<Event>, total: nat, months: nat, a: nat, k: nat)
    requires Even(was, total, months, a) && ReleasedTo(es, was, k) && k < months
    ensures Held(es, Recognized) == k * a
  {
    HeldReleased(es, was, total, months, a, k);
    HeldConcat(es[..k], es[k..], Recognized);
    assert es == es[..k] + es[k..];
  }

  /** What the run leaves of the invoice. */
  lemma ScheduledAndRun(b: Books, i: nat, months: nat, k: nat)
    requires Inv(b) && i < |b.invoices| && Unscheduled(b.invoices[i]) && k < Months(months)
    ensures var s := Next(b, Schedule(i, months, true));
            var c := Run(s, MonthSteps(i, k));
            && Inv(c) && i < |s.invoices| && i < |c.invoices|
            && c.invoices[i] == b.invoices[i].(active := true, events := c.invoices[i].events)
            && ReleasedTo(c.invoices[i].events, s.invoices[i].events, k)
  {
    var s := Next(b, Schedule(i, months, true));
    SchedulingSpreads(b, i, months);
    StepInv(b, Schedule(i, months, true));
    MonthsRun(s, i, k);
    RunInv(s, MonthSteps(i, k));
  }

  lemma ReleasedIs(b: Books, i: nat, months: nat, k: nat)
    requires Inv(b) && i < |b.invoices| && Unscheduled(b.invoices[i]) && k < Months(months)
    ensures var s := Next(b, Schedule(i, months, true));
            var c, preTax := Run(s, MonthSteps(i, k)), PreTax(b.invoices[i]);
            && i < |s.invoices| && i < |c.invoices|
            && Even(s.invoices[i].events, preTax, Months(months), preTax / Months(months))
            && ReleasedTo(c.invoices[i].events, s.invoices[i].events, k)
  {
    ScheduledAndRun(b, i, months, k);
    SchedulingSpreads(b, i, months);
  }

  lemma RecognizedAre(b: Books, i: nat, months: nat, k: nat)
    requires Inv(b) && i < |b.invoices| && Unscheduled(b.invoices[i]) && k < Months(months)
    ensures var c := Run(Next(b, Schedule(i, months, true)), MonthSteps(i, k));
            i < |c.invoices| && Held(c.invoices[i].events, Recognized) == k * (PreTax(b.invoices[i]) / Months(months))
  {
    var preTax, s := PreTax(b.invoices[i]), Next(b, Schedule(i, months, true));
    ReleasedIs(b, i, months, k);
    HeldAfterMonths(Run(s, MonthSteps(i, k)).invoices[i].events, s.invoices[i].events, preTax, Months(months),
                    preTax / Months(months), k);
  }

  lemma SharesAre(inv: Invoice, r: Invoice)
    requires WellFormed(inv) && Unscheduled(inv) && r == inv.(active := true, events := r.events)
    ensures Share(r, RecognizedRevenue) == Held(r.events, Recognized)
    ensures Share(r, DeferredRevenue) == PreTax(inv) - Held(r.events, Recognized)
  {
  }

  /** Once an invoice of reachable books is scheduled over some months and the worker has done the first `k` of them,
      short of the last, exactly `k` equal parts of its pre-tax value are recognized, and the rest is still deferred. */
  lemma ReleasedByMonth(b: Books, i: nat, months: nat, k: nat)
    requires Inv(b) && i < |b.invoices| && Unscheduled(b.invoices[i]) && k < Months(months)
    ensures var inv := b.invoices[i];
            var a := PreTax(inv) / Months(months);
            var c := Run(Next(b, Schedule(i, months, true)), MonthSteps(i, k));
            && BalanceOf(c.rows, i, RecognizedRevenue) + BalanceOf(c.lost, i, RecognizedRevenue) == k * a
            && BalanceOf(c.rows, i, DeferredRevenue) + BalanceOf(c.lost, i, DeferredRevenue) == PreTax(inv) - k * a
  {
    var inv := b.invoices[i];
    var c := Run(Next(b, Schedule(i, months, true)), MonthSteps(i, k));
    ScheduledAndRun(b, i, months, k);
    RecognizedAre(b, i, months, k);
    SharesAre(inv, c.invoices[i]);
    assert Explained(c, i);
  }
}

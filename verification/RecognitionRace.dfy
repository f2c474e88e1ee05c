/**
  The recognition worker behind a write-off or a refund
  (internal/service/revrec.go:68-96, 112-137, 206-270;
  internal/adapter/db/revrec_repository.go:70-86, 231-244).  It claims an event
  first and posts it later, while the others read the schedule first and post
  to the ledger whether or not their updates found the event: when Deferred
  Revenue can be drained twice.
 */
module RecognitionRace {
  import opened Ledger
  import opened RevenueSchedule
  import opened DeferredBooks
  import opened DeferredBooksInvariant
  import opened BookRuns
  import opened ClosePack
  import opened WriteOffBooks

  // ---- The margin ----

  /** The invoice's own Deferred Revenue. */
  function DeferredOf(b: Books, i: nat): int {
    if i < |b.invoices| then Share(b.invoices[i], DeferredRevenue) else 0
  }

  /** What the recognition worker may still post: the pending and the claimed events. */
  function Recognizable(inv: Invoice): nat {
    Held(inv.events, Pending) + Held(inv.events, Processing)
  }

  /** A subscription invoice that was written off, or paid and scheduled, with no unwind under way. */
  ghost predicate BehindAt(b: Books, i: nat) {
    Inv(b) && i < |b.invoices| && Behind(b.invoices[i])
  }

  predicate Behind(inv: Invoice) {
    && inv.subscription && (inv.writtenOff || (inv.status == Paid && inv.events != []))
    && forall n :: 0 <= n < |inv.notes| ==> !inv.notes[n].unwind.Editing?
  }

  /** No unwind of the invoice begins. */
  predicate NoLoads(steps: seq<Step>, i: nat) {
    forall j :: 0 <= j < |steps| ==> !(steps[j].LoadPending? && steps[j].i == i)
  }

  /** What Deferred still carries for the invoice beyond what can be recognized out of it. */
  function Margin(inv: Invoice): int {
    Share(inv, DeferredRevenue) - Recognizable(inv)
  }

  lemma MarginOfMove(inv: Invoice, k: nat, to: EventStatus)
    requires inv.subscription && k < |inv.events| && inv.events[k].status in {Pending, Processing} && to != Canceled
    ensures Margin(inv.(events := SetStatus(inv.events, k, to))) >= Margin(inv)
    ensures to != Failed ==> Margin(inv.(events := SetStatus(inv.events, k, to))) == Margin(inv)
  {
    HeldAfterSet(inv.events, k, to, Pending);
    HeldAfterSet(inv.events, k, to, Processing);
    HeldAfterSet(inv.events, k, to, Recognized);
  }

  lemma MarginOfNotes(inv: Invoice, ns: seq<Note>)
    requires Total(ns, OfReversal) == Total(inv.notes, OfReversal)
    ensures Margin(inv.(notes := ns)) == Margin(inv)
  {
  }

  lemma MarginOfStage(inv: Invoice, s: Step)
    requires WellFormed(inv) && Behind(inv) && Applies(inv, s)
    requires s.LoadVoids? || s.VoidNext? || s.Schedule?
    ensures Margin(Evolve(inv, s.i, s).0) >= Margin(inv) && Behind(Evolve(inv, s.i, s).0)
  {
    if s.VoidNext? && s.ok {
      VoidsOnlyTake(inv.events, inv.writeOff.edits[0]);
    }
  }

  lemma MarginOfRefund(inv: Invoice, s: Step)
    requires Behind(inv) && s.Refund? && Applies(inv, s)
    ensures Margin(Refunding(inv, s.i, s).0) == Margin(inv) && Behind(Refunding(inv, s.i, s).0)
  {
    var ns := Refunding(inv, s.i, s).0.notes;
    TotalSnoc(inv.notes, ns[|inv.notes|], OfReversal);
    MarginOfNotes(inv, ns);
  }

  lemma MarginOfOutcome(inv: Invoice, n: nat, outcome: Outcome)
    requires Behind(inv) && n < |inv.notes|
    ensures Margin(WithOutcome(inv, n, outcome)) == Margin(inv) && Behind(WithOutcome(inv, n, outcome))
  {
    var ns := WithOutcome(inv, n, outcome).notes;
    TotalUpdate(inv.notes, n, ns[n], OfReversal);
    MarginOfNotes(inv, ns);
  }

  lemma NoOtherSteps(inv: Invoice, s: Step)
    requires WellFormed(inv) && Behind(inv) && Applies(inv, s) && (inv.writtenOff || !s.LoadPending?)
    ensures || s.Claim? || s.Finish? || s.Requeue? || s.LoadVoids? || s.VoidNext? || s.Schedule?
            || s.Refund? || s.Settle? || s.Bounce?
  {
  }

  /** No step but another unwind lets what is recognizable catch up with what Deferred still carries. */
  lemma MarginEvolve(inv: Invoice, i: nat, s: Step)
    requires WellFormed(inv) && Behind(inv) && Applies(inv, s) && (inv.writtenOff || !s.LoadPending?) && s.i == i
    ensures Margin(Evolve(inv, i, s).0) >= Margin(inv) && Behind(Evolve(inv, i, s).0)
  {
    NoOtherSteps(inv, s);
    if s.Refund? {
      MarginOfRefund(inv, s);
    } else if s.Settle? || s.Bounce? {
      MarginOfOutcome(inv, s.n, if s.Settle? then Settled else Bounced);
    } else if s.LoadVoids? || s.VoidNext? || s.Schedule? {
      MarginOfStage(inv, s);
    } else {
      MarginOfMove(inv, s.k, Evolve(inv, i, s).0.events[s.k].status);
    }
  }

  lemma VoidsOnlyTake(es: seq<Event>, e: Edit)
    requires !e.Reduce?
    ensures Held(Perform(es, e), Pending) <= Held(es, Pending)
    ensures Held(Perform(es, e), Processing) == Held(es, Processing)
    ensures Held(Perform(es, e), Recognized) == Held(es, Recognized)
  {
    PerformHeld(es, e, Processing);
    PerformHeld(es, e, Recognized);
    if e.Cancel? && e.k < |es| && es[e.k].status == Pending {
      HeldAfterSet(es, e.k, Canceled, Pending);
    }
  }

  lemma BehindEvolves(inv: Invoice, i: nat, s: Step)
    requires WellFormed(inv) && Behind(inv) && Applies(inv, s) && (inv.writtenOff || !s.LoadPending?) && s.i == i
    ensures var r := Evolve(inv, i, s).0;
            Behind(r) && Margin(r) >= Margin(inv) && (inv.writtenOff ==> r.writtenOff)
  {
    EvolveKeeps(inv, i, s);
    MarginEvolve(inv, i, s);
  }

  lemma StaysBehind(b: Books, i: nat, s: Step)
    requires BehindAt(b, i) && (b.invoices[i].writtenOff || !(s.LoadPending? && s.i == i))
    ensures BehindAt(Next(b, s), i) && Margin(Next(b, s).invoices[i]) >= Margin(b.invoices[i])
    ensures b.invoices[i].writtenOff ==> Next(b, s).invoices[i].writtenOff
  {
    StepInv(b, s);
    NextInvoice(b, s, i);
    if Takes(b, s) && s.i == i {
      BehindEvolves(b.invoices[i], i, s);
    }
  }

  lemma {:induction false} MarginRun(b: Books, i: nat, steps: seq<Step>)
    requires BehindAt(b, i) && Margin(b.invoices[i]) >= 0 && (b.invoices[i].writtenOff || NoLoads(steps, i))
    ensures DeferredOf(Run(b, steps), i) >= 0
    decreases |steps|
  {
    if steps != [] {
      StaysBehind(b, i, steps[0]);
      MarginRun(Next(b, steps[0]), i, steps[1..]);
    }
  }

  /** Work left for the recognition worker: two steps for a pending event, one for a claimed one. */
  function Work(es: seq<Event>): nat {
    if es == [] then 0
    else Work(es[..|es| - 1]) + (match es[|es| - 1].status case Pending => 2 case Processing => 1 case _ => 0)
  }

  lemma {:induction false} WorkAfterSet(es: seq<Event>, k: nat, to: EventStatus)
    requires k < |es|
    requires (es[k].status == Pending && to == Processing) || (es[k].status == Processing && to == Recognized)
    ensures Work(SetStatus(es, k, to)) == Work(es) - 1
  {
    var n := |es| - 1;
    if k == n {
      assert SetStatus(es, k, to)[..n] == es[..n];
    } else {
      assert SetStatus(es, k, to)[..n] == SetStatus(es[..n], k, to);
      WorkAfterSet(es[..n], k, to);
    }
  }

  lemma {:induction false} WorkLeft(es: seq<Event>) returns (k: nat)
    ensures Work(es) > 0 ==> k < |es| && es[k].status in {Pending, Processing}
    ensures Work(es) == 0 ==> Held(es, Pending) == Held(es, Processing) == 0
  {
    k := 0;
    if es != [] {
      k := WorkLeft(es[..|es| - 1]);
      if es[|es| - 1].status in {Pending, Processing} {
        k := |es| - 1;
      }
    }
  }

  /** The worker's next step on event `k`. */
  function WorkStep(inv: Invoice, i: nat, k: nat): Step
    requires k < |inv.events|
  {
    if inv.events[k].status == Pending then Claim(i, k) else Finish(i, k, true, 0)
  }

  lemma WorkStepTakes(inv: Invoice, i: nat, k: nat)
    requires WellFormed(inv) && inv.subscription && k < |inv.events| && inv.events[k].status in {Pending, Processing}
    ensures Applies(inv, WorkStep(inv, i, k))
    ensures var r := Evolve(inv, i, WorkStep(inv, i, k)).0;
            && Margin(r) == Margin(inv) && r.notes == inv.notes && r.status == inv.status
            && Work(r.events) == Work(inv.events) - 1
  {
    var to := if inv.events[k].status == Pending then Processing else Recognized;
    WorkAfterSet(inv.events, k, to);
    MarginOfMove(inv, k, to);
  }

  /** The worker can recognize everything that is recognizable. */
  lemma {:induction false} RecognizeAll(b: Books, i: nat) returns (steps: seq<Step>)
    requires BehindAt(b, i)
    ensures DeferredOf(Run(b, steps), i) == Margin(b.invoices[i]) && NoLoads(steps, i)
    decreases Work(b.invoices[i].events)
  {
    var inv := b.invoices[i];
    var k := WorkLeft(inv.events);
    if Work(inv.events) == 0 {
      steps := [];
    } else {
      assert WellFormed(inv);
      var s := WorkStep(inv, i, k);
      WorkStepTakes(inv, i, k);
      StaysBehind(b, i, s);
      assert Next(b, s).invoices[i] == Evolve(inv, i, s).0;
      var rest := RecognizeAll(Next(b, s), i);
      RunCons(b, s, rest);
      steps := [s] + rest;
    }
  }

  /** Once the legs of a write-off are posted, every continuation keeps the invoice's Deferred from going negative
      if and only if what is still pending or claimed fits into what Deferred still carries for it. */
  lemma OverdrawnBehindWriteOffIff(b: Books, i: nat)
    requires BehindAt(b, i) && b.invoices[i].writtenOff
    ensures (forall steps :: DeferredOf(Run(b, steps), i) >= 0)
            <==> Recognizable(b.invoices[i]) <= Share(b.invoices[i], DeferredRevenue)
  {
    if Margin(b.invoices[i]) >= 0 {
      forall steps ensures DeferredOf(Run(b, steps), i) >= 0 {
        MarginRun(b, i, steps);
      }
    } else {
      var steps := RecognizeAll(b, i);
      assert DeferredOf(Run(b, steps), i) < 0;
    }
  }

  /** And once the unwinds of a paid invoice are over: every continuation without another one keeps it from going
      negative if and only if the same holds. */
  lemma OverdrawnBehindRefundIff(b: Books, i: nat)
    requires BehindAt(b, i) && b.invoices[i].status == Paid
    ensures (forall steps :: NoLoads(steps, i) ==> DeferredOf(Run(b, steps), i) >= 0)
            <==> Recognizable(b.invoices[i]) <= Share(b.invoices[i], DeferredRevenue)
  {
    if Margin(b.invoices[i]) >= 0 {
      forall steps | NoLoads(steps, i) ensures DeferredOf(Run(b, steps), i) >= 0 {
        MarginRun(b, i, steps);
      }
    } else {
      var steps := RecognizeAll(b, i);
      assert NoLoads(steps, i) && DeferredOf(Run(b, steps), i) < 0;
    }
  }

  /** What is left over beyond the recognizable is what abandoned unwinds took, less what finished ones missed, plus
      the events whose post failed. */
  lemma MarginIs(inv: Invoice)
    requires WellFormed(inv) && inv.subscription && inv.status == Paid && inv.events != []
    ensures Margin(inv) == Total(inv.notes, OfDrift) + Held(inv.events, Failed)
  {
    DriftIs(inv.notes);
  }

  /** So after a write-off that nothing interrupted: if and only if no event with an amount was claimed when it
      began. */
  lemma WriteOffOverdrawsIff(b: Books, i: nat, at: int)
    requires Inv(b) && i < |b.invoices|
    requires b.invoices[i].subscription && b.invoices[i].status == Open && b.invoices[i].total > 0
    ensures (forall steps :: DeferredOf(Run(Run(b, WriteOffSteps(b.invoices[i], i, at)), steps), i) >= 0)
            <==> forall k :: 0 <= k < |b.invoices[i].events| && b.invoices[i].events[k].status == Processing ==>
                   b.invoices[i].events[k].amount == 0
  {
    var inv := b.invoices[i];
    var w := Run(b, WriteOffSteps(inv, i, at));
    WriteOffRuns(b, i, at);
    WriteOffCarriesNothing(inv);
    OverdrawnBehindWriteOffIff(w, i);
    HeldZeroIff(inv.events, Processing);
  }

  lemma WriteOffCarriesNothing(inv: Invoice)
    requires WellFormed(inv) && inv.subscription && inv.status == Open
    ensures Share(WrittenOff(inv), DeferredRevenue) == 0
    ensures Recognizable(WrittenOff(inv)) == Held(inv.events, Processing)
  {
    CancelPendingConserves(inv.events);
    TotalOfNothing([]);
  }

  lemma {:induction false} HeldZeroIff(es: seq<Event>, st: EventStatus)
    ensures Held(es, st) == 0 <==> forall k :: 0 <= k < |es| && es[k].status == st ==> es[k].amount == 0
  {
    if es != [] {
      HeldZeroIff(es[..|es| - 1], st);
    }
  }

  // ---- Runs that show it ----

  /** Written off while its event is claimed: all of it is reversed, and the event stays claimed. */
  lemma SampleWrittenOffClaimed(b: Books, total: nat) returns (off: seq<Step>)
    requires Inv(b) && total > 0 && b.invoices == [Sample(total, Processing)]
    ensures Run(b, off).invoices == [WrittenOff(Sample(total, Processing))] && Run(b, off).lost == b.lost
    ensures WrittenOff(Sample(total, Processing)).events == [Event(total, Processing)]
  {
    off := WriteOffSteps(b.invoices[0], 0, 1);
    WriteOffRuns(b, 0, 1);
    assert CancelPending(b.invoices[0].events) == b.invoices[0].events;
  }

  lemma SampleDrained(total: nat)
    ensures Share(WrittenOff(Sample(total, Processing)).(events := [Event(total, Recognized)]), DeferredRevenue)
         == -(total as int)
  {
    SampleHeld(total, Processing);
    assert Held([Event(total, Recognized)], Recognized) == total;
  }

  /** An event claimed before the write-off and posted behind it leaves Deferred Revenue negative, by its amount: a
      run in which every statement succeeds. */
  lemma WriteOffRaceOverdraws(total: nat) returns (steps: seq<Step>)
    requires total > 0
    ensures var b := Run(EMPTY_BOOKS, steps); b.lost == [] && Balance(b.rows, DeferredRevenue) == -(total as int)
  {
    var claim := SampleClaimed(total);
    EmptyInv();
    RunInv(EMPTY_BOOKS, claim);
    var off := SampleWrittenOffClaimed(Run(EMPTY_BOOKS, claim), total);
    RunConcat(EMPTY_BOOKS, claim, off);
    var w := Run(EMPTY_BOOKS, claim + off);
    var finish := Finish(0, 0, true, 1);
    SampleFinishes(w, w.invoices[0], total, finish);
    RunCons(w, finish, []);
    assert [finish] + [] == [finish];
    RunConcat(EMPTY_BOOKS, claim + off, [finish]);
    steps := claim + off + [finish];
    RunInv(EMPTY_BOOKS, steps);
    OneInvoice(Run(EMPTY_BOOKS, steps), DeferredRevenue);
    SampleDrained(total);
  }

  // A paid and fully refunded invoice without tax whose only event is in the given status.
  function Refunded(total: nat, st: EventStatus, unwind: Unwind, missed: int, active: bool): Invoice {
    Sample(total, st).(status := Paid, amountPaid := total, active := active,
                       notes := [Note(total, 0, Settled, unwind, 0, missed)])
  }

  lemma SampleRefunds(total: nat, s: Step)
    requires total > 0 && s == Step.Refund(0, total, true, true, true, 2)
    ensures var paid := Sample(total, Pending).(status := Paid, amountPaid := total);
            && Applies(paid, s) && Evolve(paid, 0, s).0 == Refunded(total, Pending, Loading, 0, true)
            && forall m :: 0 <= m < |Evolve(paid, 0, s).1| ==> Evolve(paid, 0, s).1[m].ok
  {
  }

  /** Issued, scheduled over one month, paid and refunded in full. */
  lemma SampleRefunded(total: nat) returns (steps: seq<Step>)
    requires total > 0
    ensures var b := Run(EMPTY_BOOKS, steps);
            b.invoices == [Refunded(total, Pending, Loading, 0, true)] && b.lost == []
  {
    steps := [Issue(true, total, 0, true, 0), Schedule(0, 1, true), Pay(0, total, true, 1),
              Step.Refund(0, total, true, true, true, 2)];
    var b1 := Next(EMPTY_BOOKS, steps[0]);
    var b2 := Next(b1, steps[1]);
    var b3 := Next(b2, steps[2]);
    SampleIssued(total, steps[0]);
    SampleSchedules(total, steps[1]);
    NextOnly(b1, NewInvoice(true, total, 0), steps[1]);
    NextOnly(b2, Sample(total, Pending), steps[2]);
    SampleRefunds(total, steps[3]);
    NextOnly(b3, Sample(total, Pending).(status := Paid, amountPaid := total), steps[3]);
    RunFour(EMPTY_BOOKS, steps[0], steps[1], steps[2], steps[3]);
  }

  lemma SampleLoads(total: nat)
    requires total > 0
    ensures Evolve(Refunded(total, Pending, Loading, 0, true), 0, LoadPending(0, 0, true))
         == (Refunded(total, Pending, Editing([Cancel(0, total), Close], total), 0, true), [])
  {
    SampleHeld(total, Pending);
    var es := [Event(total, Pending)];
    assert es[..0] == [] && TailEdits([], 0) == [];
    assert TailEdits(es, total) == [Cancel(0, total)] + [] == [Cancel(0, total)];
    assert [Cancel(0, total)] + [Close] == [Cancel(0, total), Close];
    var inv := Refunded(total, Pending, Loading, 0, true);
    assert inv.notes[0 := inv.notes[0].(unwind := Editing([Cancel(0, total), Close], total))]
        == [Note(total, 0, Settled, Editing([Cancel(0, total), Close], total), 0, 0)];
  }

  /** An update of the unwind that no longer finds its event pending. */
  lemma SampleMisses(total: nat, edits: seq<Edit>, e: Edit, missed: int, active: bool)
    requires edits != [] && edits[0] == e && !e.Reduce?
    ensures var inv := Refunded(total, Processing, Editing(edits, total), missed, active);
            && Applies(inv, EditNext(0, 0, true))
            && Evolve(inv, 0, EditNext(0, 0, true))
            == (Refunded(total, Processing, Editing(edits[1..], total), missed + Cut(e), active && !e.Close?), [])
  {
    var inv := Refunded(total, Processing, Editing(edits, total), missed, active);
    assert Perform(inv.events, e) == inv.events;
    assert EditingNext(inv, 0, true).notes == [Note(total, 0, Settled, Editing(edits[1..], total), 0, missed + Cut(e))];
  }

  /** The unwind reads the pending event; then the worker claims it; then the unwind's two updates, neither of which
      finds it. */
  lemma SampleOvertaken(b: Books, total: nat) returns (steps: seq<Step>)
    requires total > 0 && b.invoices == [Refunded(total, Pending, Loading, 0, true)]
    ensures var c := Run(b, steps);
            && c.invoices == [Refunded(total, Processing, Editing([], total), total, false)]
            && c.lost == b.lost
  {
    steps := [LoadPending(0, 0, true), Claim(0, 0), EditNext(0, 0, true), EditNext(0, 0, true)];
    var plan := [Cancel(0, total), Close];
    assert plan[1..] == [Close] && [Close][1..] == [];
    var b1 := Next(b, steps[0]);
    var b2 := Next(b1, steps[1]);
    var b3 := Next(b2, steps[2]);
    SampleLoads(total);
    NextOnly(b, Refunded(total, Pending, Loading, 0, true), steps[0]);
    assert SetStatus([Event(total, Pending)], 0, Processing) == [Event(total, Processing)];
    NextOnly(b1, Refunded(total, Pending, Editing(plan, total), 0, true), steps[1]);
    SampleMisses(total, plan, plan[0], 0, true);
    NextOnly(b2, Refunded(total, Processing, Editing(plan, total), 0, true), steps[2]);
    SampleMisses(total, [Close], Close, total, true);
    NextOnly(b3, Refunded(total, Processing, Editing([Close], total), total, true), steps[3]);
    RunFour(b, steps[0], steps[1], steps[2], steps[3]);
  }

  /** The reversal is posted in full, and so is the recognition. */
  lemma SamplePostsBoth(c: Books, total: nat) returns (steps: seq<Step>)
    requires total > 0 && c.invoices == [Refunded(total, Processing, Editing([], total), total, false)]
    ensures Run(c, steps).invoices == [Refunded(total, Recognized, Unwound(total), total, false)]
    ensures Run(c, steps).lost == c.lost
  {
    var post, finish := PostReversal(0, 0, true, 3), Finish(0, 0, true, 1);
    steps := [post, finish];
    var d := Next(c, post);
    NextOnly(c, Refunded(total, Processing, Editing([], total), total, false), post);
    assert d.invoices[0].notes == [Note(total, 0, Settled, Unwound(total), 0, total)];
    SampleFinishes(d, Refunded(total, Processing, Unwound(total), total, false), total, finish);
    RunCons(d, finish, []);
    RunCons(c, post, [finish]);
    assert [finish] + [] == [finish] && [post] + [finish] == [post, finish];
  }

  lemma SampleOverdrawn(total: nat)
    ensures Share(Refunded(total, Recognized, Unwound(total), total, false), DeferredRevenue) == -(total as int)
  {
    SampleHeld(total, Recognized);
    TotalSnoc([], Note(total, 0, Settled, Unwound(total), 0, total), OfReversal);
    assert [] + [Note(total, 0, Settled, Unwound(total), 0, total)]
        == [Note(total, 0, Settled, Unwound(total), 0, total)];
  }

  /** An event claimed between the unwind's read and its update is recognized and reversed both: a full refund leaves
      Deferred Revenue negative, by its net, in a run in which every statement succeeds. */
  lemma UnwindRaceOverdraws(total: nat) returns (steps: seq<Step>)
    requires total > 0
    ensures var b := Run(EMPTY_BOOKS, steps); b.lost == [] && Balance(b.rows, DeferredRevenue) == -(total as int)
  {
    var refund := SampleRefunded(total);
    var unwind := SampleOvertaken(Run(EMPTY_BOOKS, refund), total);
    var post := SamplePostsBoth(Run(Run(EMPTY_BOOKS, refund), unwind), total);
    RunConcat(EMPTY_BOOKS, refund, unwind);
    RunConcat(EMPTY_BOOKS, refund + unwind, post);
    steps := refund + unwind + post;
    EmptyInv();
    RunInv(EMPTY_BOOKS, steps);
    OneInvoice(Run(EMPTY_BOOKS, steps), DeferredRevenue);
    SampleOverdrawn(total);
  }
}

/**
  The month-end tie-out of deferred revenue (internal/service/close_pack.go):
  the Deferred Revenue account against the recognition schedules plus the
  invoices still awaiting payment.
 */
module ClosePack {
  import opened Options
  import opened Ledger
  import opened RevenueSchedule
  import opened DeferredBooks
  import opened DeferredBooksInvariant

  // ---- The three figures ----

  /** SumUnscheduledDeferral for one invoice: pre-tax value the ledger carries and no active schedule covers. */
  function AwaitingOf(inv: Invoice, i: nat, rows: seq<Transfer>): int {
    if inv.subscription && !inv.active
       && (inv.status == Open || (inv.status == Uncollectible && !HasWriteOffLeg(rows, i)))
    then PreTax(inv) else 0
  }

  function Awaiting(invs: seq<Invoice>, rows: seq<Transfer>): int {
    if invs == [] then 0
    else Awaiting(invs[..|invs| - 1], rows) + AwaitingOf(invs[|invs| - 1], |invs| - 1, rows)
  }

  /** Scheduled is the report's own figure, GetReport's deferred balance.  The others are what it can miss:
      claimed or failed events are out of the pending total but not of the ledger;
      a paid invoice whose schedule was never created, or any whose schedule row has no events, is in neither bucket;
      refunds drift by what their unwinds took out of the events and not out of Deferred;
      a write-off strands what it took out of Deferred while an event still held it;
      one with nothing left to defer posts no code-22 leg, and the awaiting bucket takes it for unposted. */
  datatype Term = Scheduled | InFlight | Unscheduled | Drifted | Stranded | Miscounted

  function TermOf(inv: Invoice, t: Term): int {
    match t
    case Scheduled => Held(inv.events, Pending)
    case InFlight => if inv.subscription then Held(inv.events, Processing) + Held(inv.events, Failed) else 0
    case Unscheduled =>
      if inv.subscription && inv.events == [] && !inv.writtenOff && (inv.active || inv.status == Paid)
      then PreTax(inv) else 0
    case Drifted => Total(inv.notes, OfDrift)
    case Stranded => if inv.subscription && inv.writtenOff && inv.events != [] then inv.reversed - inv.voided else 0
    case Miscounted =>
      if inv.subscription && inv.writtenOff && inv.reversed == 0 && !inv.active then PreTax(inv) else 0
  }

  function Sum(invs: seq<Invoice>, t: Term): int {
    if invs == [] then 0 else Sum(invs[..|invs| - 1], t) + TermOf(invs[|invs| - 1], t)
  }

  function UnexplainedDelta(b: Books): int {
    Balance(b.rows, DeferredRevenue) - Sum(b.invoices, Scheduled) - Awaiting(b.invoices, b.rows)
  }

  // ---- What the difference is made of ----

  lemma WriteOffLegIff(b: Books, i: nat)
    requires Inv(b) && i < |b.invoices|
    ensures HasWriteOffLeg(b.rows, i) <==> b.invoices[i].writtenOff && b.invoices[i].reversed > 0
  {
    if HasWriteOffLeg(b.rows, i) {
      var j :| 0 <= j < |b.rows| && b.rows[j].reference == InvoiceRef(i) && b.rows[j].code == 22;
      assert Justified(b.invoices, b.rows[j]);
    }
  }

  lemma {:induction false} DriftIs(ns: seq<Note>)
    requires forall n :: 0 <= n < |ns| ==> NoteOk(ns[n])
    ensures Total(ns, OfDrift) == Total(ns, OfTaken) - Total(ns, OfReversal)
  {
    if ns != [] {
      DriftIs(ns[..|ns| - 1]);
      assert NoteOk(ns[|ns| - 1]);
    }
  }

  /** One invoice's tie-out. */
  lemma TieOutOne(b: Books, i: nat)
    requires Inv(b) && i < |b.invoices|
    ensures var inv := b.invoices[i];
            Share(inv, DeferredRevenue) == TermOf(inv, Scheduled) + AwaitingOf(inv, i, b.rows) + TermOf(inv, InFlight)
              + TermOf(inv, Unscheduled) + TermOf(inv, Drifted) - TermOf(inv, Stranded) - TermOf(inv, Miscounted)
  {
    var inv := b.invoices[i];
    assert WellFormed(inv);
    WriteOffLegIff(b, i);
    DriftIs(inv.notes);
    if !inv.subscription {
      TotalOfNothing(inv.notes);
      HeldAllRecognized(inv.events, Pending);
    } else if inv.events == [] {
      TotalOfNothing(inv.notes);
    }
  }

  lemma {:induction false} TieOutPrefix(b: Books, n: nat)
    requires Inv(b) && n <= |b.invoices|
    ensures var invs := b.invoices[..n];
            SumShares(invs, DeferredRevenue) == Sum(invs, Scheduled) + Awaiting(invs, b.rows) + Sum(invs, InFlight)
              + Sum(invs, Unscheduled) + Sum(invs, Drifted) - Sum(invs, Stranded) - Sum(invs, Miscounted)
  {
    if n > 0 {
      assert b.invoices[..n][..n - 1] == b.invoices[..n - 1];
      TieOutPrefix(b, n - 1);
      TieOutOne(b, n - 1);
    }
  }

  /** In every reachable state the unexplained difference is exactly: claimed and failed events, invoices whose
      schedule is missing, what unwinds took and did not post or posted and did not take, less what write-offs
      stranded, less fully recognized write-offs, less the Deferred legs that failed to post. */
  lemma TieOut(b: Books)
    requires Inv(b)
    ensures UnexplainedDelta(b) == Sum(b.invoices, InFlight) + Sum(b.invoices, Unscheduled) + Sum(b.invoices, Drifted)
              - Sum(b.invoices, Stranded) - Sum(b.invoices, Miscounted) - Balance(b.lost, DeferredRevenue)
  {
    AccountExplained(b, DeferredRevenue);
    TieOutPrefix(b, |b.invoices|);
    assert b.invoices[..|b.invoices|] == b.invoices;
  }

  // ---- Unwinds that are overtaken ----

  /** One statement of an unwind falls behind its plan by exactly what it did not find: nothing if the event is
      still as it was read, and all of it if the event was claimed, recognized or voided meanwhile. */
  lemma EditMisses(inv: Invoice, n: nat)
    requires WellFormed(inv) && Applies(inv, EditNext(0, n, true))
    ensures var e := inv.notes[n].unwind.edits[0];
            var missed := EditingNext(inv, n, true).notes[n].missed - inv.notes[n].missed;
            && (Untouched(inv.events, e) ==> missed == 0)
            && (!e.Close? && e.k < |inv.events| && inv.events[e.k].status != Pending ==> missed == Cut(e))
  {
    PerformHeld(inv.events, inv.notes[n].unwind.edits[0], Pending);
  }

  /** A refund whose unwind ran to its end leaves the tie-out alone if and only if it missed nothing. */
  lemma UnwoundDriftIff(inv: Invoice, n: nat)
    requires WellFormed(inv) && n < |inv.notes| && inv.notes[n].unwind.Unwound?
    ensures Weight(inv.notes[n], OfDrift) == inv.notes[n].taken - inv.notes[n].unwind.reverse
    ensures Weight(inv.notes[n], OfDrift) == 0 <==> inv.notes[n].missed == 0
  {
    assert NoteOk(inv.notes[n]);
  }

  // ---- Runs in which statements succeed and do not overtake each other ----

  /** No unwind is in the middle of its updates, and no write-off between its reads and its updates. */
  predicate Undisturbed(inv: Invoice) {
    && (forall n :: 0 <= n < |inv.notes| ==> !inv.notes[n].unwind.Editing?)
    && !inv.writeOff.Splitting? && !inv.writeOff.Listing? && !inv.writeOff.Voiding?
  }

  /** Posts, reads and updates succeed; no event is claimed, and no second unwind starts, while one is under way; and
      nothing is claimed when a write-off reads what is recognized. */
  predicate OrderlyStep(b: Books, s: Step) {
    match s
    case Issue(_, _, _, posted, _) => posted
    case Schedule(_, _, filled) => filled
    case Pay(_, _, posted, _) => posted
    case Claim(i, _) => i < |b.invoices| ==> Undisturbed(b.invoices[i])
    case Finish(_, _, posted, _) => posted
    case ReadRecognized(i, ok) => ok && (i < |b.invoices| ==> Held(b.invoices[i].events, Processing) == 0)
    case PostWriteOff(_, posted, _) => posted
    case LoadVoids(_, ok) => ok
    case VoidNext(_, ok) => ok
    case Refund(_, _, _, cash, tax, _) => cash && tax
    case LoadPending(i, _, ok) => ok && (i < |b.invoices| ==> Undisturbed(b.invoices[i]))
    case EditNext(_, _, ok) => ok
    case PostReversal(_, _, posted, _) => posted
    case _ => true
  }

  predicate OrderlyRun(b: Books, steps: seq<Step>)
    decreases |steps|
  {
    steps == [] || (OrderlyStep(b, steps[0]) && OrderlyRun(Next(b, steps[0]), steps[1..]))
  }

  /** Unwinds: at most one under way, its plan intact; none missed or abandoned anything. */
  ghost predicate CleanNotes(inv: Invoice) {
    && (forall n :: 0 <= n < |inv.notes| ==>
          && inv.notes[n].missed == 0 && inv.notes[n].taken >= 0
          && (inv.notes[n].unwind.Dropped? ==> inv.notes[n].taken == 0)
          && (inv.notes[n].unwind.Editing? ==> PlanOk(inv.events, inv.notes[n].unwind.edits)))
    && (forall m, n :: 0 <= m < n < |inv.notes| && inv.notes[m].unwind.Editing? ==> !inv.notes[n].unwind.Editing?)
  }

  /** A write-off: what it still has to void is what is pending. */
  ghost predicate CleanWriteOff(inv: Invoice) {
    && (inv.writeOff.Splitting? ==>
          inv.writeOff.recognized == Held(inv.events, Recognized) && Held(inv.events, Processing) == 0)
    && (inv.writtenOff && inv.events != [] ==>
          && Held(inv.events, Processing) == 0 && inv.reversed - inv.voided == Held(inv.events, Pending)
          && (inv.writeOff.Listing? ==> inv.active)
          && (inv.writeOff.Over? ==> Held(inv.events, Pending) == 0 && !inv.active))
    && (inv.writeOff.Voiding? ==>
          && PlanOk(inv.events, inv.writeOff.edits) && Planned(inv.writeOff.edits) == Held(inv.events, Pending)
          && inv.writeOff.edits != [] && inv.writeOff.edits[|inv.writeOff.edits| - 1] == Close)
  }

  ghost predicate Clean(inv: Invoice) {
    inv.subscription ==> Held(inv.events, Failed) == 0 && CleanNotes(inv) && CleanWriteOff(inv)
  }

  ghost predicate Orderly(b: Books) {
    && Inv(b) && b.lost == []
    && forall i :: 0 <= i < |b.invoices| ==> Clean(b.invoices[i])
  }

  lemma {:induction false} AllPosted(rows: seq<Transfer>, lost: seq<Transfer>, legs: seq<Leg>)
    requires forall m :: 0 <= m < |legs| ==> legs[m].ok
    ensures AttemptAll(rows, lost, legs).1 == lost
    decreases |legs|
  {
    if legs != [] {
      AllPosted(Attempt(rows, lost, legs[0]).0, lost, legs[1..]);
    }
  }

  lemma PlanSurvives(es: seq<Event>, edits: seq<Edit>, k: nat, to: EventStatus)
    requires PlanOk(es, edits) && k < |es| && es[k].status != Pending
    ensures PlanOk(SetStatus(es, k, to), edits)
  {
    forall m | 0 <= m < |edits| ensures Untouched(SetStatus(es, k, to), edits[m]) {
      assert Untouched(es, edits[m]);
    }
  }

  lemma PlanClose(es: seq<Event>, edits: seq<Edit>)
    requires PlanOk(es, edits)
    ensures PlanOk(es, edits + [Close]) && Planned(edits + [Close]) == Planned(edits)
  {
    PlannedSnoc(edits, Close);
    forall m | 0 <= m < |edits + [Close]| ensures Untouched(es, (edits + [Close])[m]) {
      assert m < |edits| ==> Untouched(es, edits[m]);
    }
  }

  lemma CleanSchedule(inv: Invoice, months: nat)
    requires WellFormed(inv) && Clean(inv) && inv.subscription && Applies(inv, Schedule(0, months, true))
    ensures Clean(WithSchedule(inv, months, true))
  {
    if !inv.active && PreTax(inv) > 0 {
      AllocationConserves(PreTax(inv), if months < 1 then 1 else months);
    }
  }

  /** An event that changes status outside a plan. */
  lemma CleanMove(inv: Invoice, k: nat, to: EventStatus)
    requires WellFormed(inv) && Clean(inv) && inv.subscription && k < |inv.events|
    requires to != Failed && inv.events[k].status in {Pending, Processing}
    requires inv.events[k].status == Pending ==> Undisturbed(inv) && to == Processing
    ensures Clean(inv.(events := SetStatus(inv.events, k, to)))
  {
    var es := SetStatus(inv.events, k, to);
    HeldAfterSet(inv.events, k, to, Failed);
    HeldAfterSet(inv.events, k, to, Processing);
    HeldAfterSet(inv.events, k, to, Pending);
    HeldAfterSet(inv.events, k, to, Recognized);
    HeldAtLeast(inv.events, k);
    if inv.writeOff.Voiding? {
      PlanSurvives(inv.events, inv.writeOff.edits, k, to);
    }
    forall n | 0 <= n < |inv.notes| && inv.notes[n].unwind.Editing? ensures PlanOk(es, inv.notes[n].unwind.edits) {
      PlanSurvives(inv.events, inv.notes[n].unwind.edits, k, to);
    }
  }

  lemma {:induction false} HeldAtLeast(es: seq<Event>, k: nat)
    requires k < |es|
    ensures Held(es, es[k].status) >= es[k].amount
  {
    if k < |es| - 1 {
      HeldAtLeast(es[..|es| - 1], k);
    }
  }

  lemma CleanRead(inv: Invoice, i: nat, s: Step)
    requires WellFormed(inv) && Clean(inv) && inv.subscription && s.ReadRecognized? && Applies(inv, s)
    requires s.ok && Held(inv.events, Processing) == 0
    ensures Clean(Evolve(inv, i, s).0)
  {
    TotalOfNothing([]);
  }

  lemma CleanPost(inv: Invoice, i: nat, at: int)
    requires WellFormed(inv) && Clean(inv) && inv.subscription && inv.writeOff.Splitting?
    ensures Clean(PostingWriteOff(inv, i, true, at).0)
  {
    TotalOfNothing([]);
  }

  lemma CleanListing(inv: Invoice, i: nat, s: Step)
    requires WellFormed(inv) && Clean(inv) && inv.subscription && s.LoadVoids? && s.ok && Applies(inv, s)
    ensures Clean(Evolve(inv, i, s).0)
  {
    VoidEditsPlan(inv.events);
    PlanClose(inv.events, VoidEdits(inv.events));
  }

  lemma CleanVoid(inv: Invoice)
    requires WellFormed(inv) && Clean(inv) && inv.subscription && inv.writeOff.Voiding? && inv.writeOff.edits != []
    ensures Clean(VoidingNext(inv, true))
  {
    var edits := inv.writeOff.edits;
    PlanSteps(inv.events, edits);
    EditTakes(inv, edits);
    assert edits[1..] == [] ==> edits[0] == Close && Planned(edits) == 0;
  }

  /** A statement of an intact plan takes what was planned, and touches nothing claimed, recognized or failed. */
  lemma EditTakes(inv: Invoice, edits: seq<Edit>)
    requires PlanOk(inv.events, edits) && edits != []
    ensures Taking(inv, edits[0]) == Cut(edits[0]) >= 0
    ensures Held(Perform(inv.events, edits[0]), Failed) == Held(inv.events, Failed)
    ensures Held(Perform(inv.events, edits[0]), Processing) == Held(inv.events, Processing)
    ensures Held(Perform(inv.events, edits[0]), Recognized) == Held(inv.events, Recognized)
  {
    assert Untouched(inv.events, edits[0]);
    PerformHeld(inv.events, edits[0], Pending);
    PerformHeld(inv.events, edits[0], Failed);
    PerformHeld(inv.events, edits[0], Processing);
    PerformHeld(inv.events, edits[0], Recognized);
  }

  lemma CleanRefund(inv: Invoice, i: nat, s: Step)
    requires WellFormed(inv) && Clean(inv) && inv.subscription && s.Refund? && Applies(inv, s)
    ensures Clean(Refunding(inv, i, s).0)
  {
  }

  lemma CleanLoad(inv: Invoice, n: nat)
    requires WellFormed(inv) && Clean(inv) && inv.subscription && Undisturbed(inv)
    requires n < |inv.notes| && inv.notes[n].unwind == Loading
    ensures Clean(inv.(notes := inv.notes[n := inv.notes[n].(unwind := Loaded(inv, inv.notes[n], true))]))
  {
    assert NoteOk(inv.notes[n]);
    var reverse := Reversible(inv.active, inv.events, inv.notes[n].amount - inv.notes[n].tax);
    var edits := TailEdits(inv.events, reverse);
    if reverse > 0 {
      TailEditsPlan(inv.events, reverse);
      PlanClose(inv.events, edits);
      assert edits + [] == edits;
    }
  }

  lemma CleanEdit(inv: Invoice, n: nat)
    requires WellFormed(inv) && Clean(inv) && inv.subscription && Applies(inv, EditNext(0, n, true))
    ensures Clean(EditingNext(inv, n, true))
  {
    var edits := inv.notes[n].unwind.edits;
    PlanSteps(inv.events, edits);
    EditTakes(inv, edits);
  }

  lemma CleanReversal(inv: Invoice, i: nat, n: nat, at: int)
    requires WellFormed(inv) && Clean(inv) && inv.subscription && Applies(inv, PostReversal(i, n, true, at))
    ensures Clean(PostingReversal(inv, i, n, true, at).0)
  {
  }

  lemma CleanOutcome(inv: Invoice, n: nat, outcome: Outcome)
    requires Clean(inv) && n < |inv.notes|
    ensures Clean(WithOutcome(inv, n, outcome))
  {
  }

  /** The part of OrderlyStep that is about the invoice. */
  predicate OrderlyFor(inv: Invoice, s: Step) {
    match s
    case Schedule(_, _, filled) => filled
    case Claim(_, _) => Undisturbed(inv)
    case Finish(_, _, posted, _) => posted
    case ReadRecognized(_, ok) => ok && Held(inv.events, Processing) == 0
    case PostWriteOff(_, posted, _) => posted
    case LoadVoids(_, ok) => ok
    case VoidNext(_, ok) => ok
    case LoadPending(_, _, ok) => ok && Undisturbed(inv)
    case EditNext(_, _, ok) => ok
    case _ => true
  }

  lemma CleanWriteOffStep(inv: Invoice, i: nat, s: Step)
    requires WellFormed(inv) && Clean(inv) && inv.subscription && Applies(inv, s) && OrderlyFor(inv, s)
    requires s.MarkUncollectible? || s.ReadRecognized? || s.PostWriteOff? || s.LoadVoids? || s.VoidNext?
    ensures Clean(Evolve(inv, i, s).0)
  {
    if s.ReadRecognized? {
      CleanRead(inv, i, s);
    } else if s.PostWriteOff? {
      CleanPost(inv, i, s.at);
    } else if s.LoadVoids? {
      CleanListing(inv, i, s);
    } else if s.VoidNext? {
      CleanVoid(inv);
    }
  }

  lemma CleanRefundStep(inv: Invoice, i: nat, s: Step)
    requires WellFormed(inv) && Clean(inv) && inv.subscription && Applies(inv, s) && OrderlyFor(inv, s)
    requires s.Refund? || s.LoadPending? || s.EditNext? || s.PostReversal? || s.Settle? || s.Bounce?
    ensures Clean(Evolve(inv, i, s).0)
  {
    if s.Refund? {
      CleanRefund(inv, i, s);
    } else if s.LoadPending? {
      CleanLoad(inv, s.n);
    } else if s.EditNext? {
      CleanEdit(inv, s.n);
    } else if s.PostReversal? {
      CleanReversal(inv, i, s.n, s.at);
    } else {
      CleanOutcome(inv, s.n, if s.Settle? then Settled else Bounced);
    }
  }

  lemma CleanEvolve(inv: Invoice, i: nat, s: Step)
    requires WellFormed(inv) && Clean(inv) && inv.subscription && Applies(inv, s) && OrderlyFor(inv, s)
    ensures Clean(Evolve(inv, i, s).0)
  {
    if s.Schedule? {
      CleanSchedule(inv, s.months);
    } else if s.Claim? || s.Finish? || s.Requeue? {
      CleanMove(inv, s.k, if s.Claim? then Processing else if s.Finish? then Recognized else Pending);
    } else if s.MarkUncollectible? || s.ReadRecognized? || s.PostWriteOff? || s.LoadVoids? || s.VoidNext? {
      CleanWriteOffStep(inv, i, s);
    } else if !s.Pay? {
      CleanRefundStep(inv, i, s);
    }
  }

  lemma OrderlyLegs(b: Books, s: Step)
    requires OrderlyStep(b, s) && Takes(b, s)
    ensures forall m :: 0 <= m < |Evolve(b.invoices[s.i], s.i, s).1| ==> Evolve(b.invoices[s.i], s.i, s).1[m].ok
  {
  }

  lemma OrderlyUpdate(b: Books, i: nat, r: Invoice, legs: seq<Leg>)
    requires Orderly(b) && i < |b.invoices| && Clean(r) && Inv(Update(b, i, r, legs))
    requires forall m :: 0 <= m < |legs| ==> legs[m].ok
    ensures Orderly(Update(b, i, r, legs))
  {
    AllPosted(b.rows, b.lost, legs);
  }

  lemma OrderlyIssue(b: Books, s: Step)
    requires Orderly(b) && s.Issue? && s.posted && Inv(Next(b, s))
    ensures Orderly(Next(b, s))
  {
    AllPosted(b.rows, b.lost, IssueLegs(|b.invoices|, s.subscription, s.total, s.tax, s.posted, s.at));
  }

  lemma OrderlyInvoice(b: Books, s: Step)
    requires Orderly(b) && OrderlyStep(b, s) && Takes(b, s)
    ensures Clean(Evolve(b.invoices[s.i], s.i, s).0)
  {
    var inv := b.invoices[s.i];
    EvolveKeeps(inv, s.i, s);
    if inv.subscription {
      CleanEvolve(inv, s.i, s);
    }
  }

  lemma OrderlyNext(b: Books, s: Step)
    requires Orderly(b) && OrderlyStep(b, s)
    ensures Orderly(Next(b, s))
  {
    StepInv(b, s);
    if s.Issue? {
      OrderlyIssue(b, s);
    } else if Takes(b, s) {
      var (r, legs) := Evolve(b.invoices[s.i], s.i, s);
      OrderlyLegs(b, s);
      OrderlyInvoice(b, s);
      OrderlyUpdate(b, s.i, r, legs);
    }
  }

  lemma {:induction false} OrderlyRunStays(b: Books, steps: seq<Step>)
    requires Orderly(b) && OrderlyRun(b, steps)
    ensures Orderly(Run(b, steps))
    decreases |steps|
  {
    if steps != [] {
      OrderlyNext(b, steps[0]);
      OrderlyRunStays(Next(b, steps[0]), steps[1..]);
    }
  }

  /** A written-off subscription invoice of which nothing was left to defer. */
  predicate FullyRecognizedWriteOff(inv: Invoice) {
    inv.subscription && inv.writtenOff && inv.reversed == 0 && PreTax(inv) > 0
  }

  /** At the moment of the report nothing is claimed or half done, and no schedule is missing. */
  predicate Quiet(inv: Invoice) {
    && TermOf(inv, InFlight) == 0 && TermOf(inv, Unscheduled) == 0
    && Undisturbed(inv)
  }

  predicate Quiescent(invs: seq<Invoice>) {
    forall i :: 0 <= i < |invs| ==> Quiet(invs[i])
  }

  lemma {:induction false} NoDrift(ns: seq<Note>)
    requires forall n :: 0 <= n < |ns| ==> Weight(ns[n], OfDrift) == 0
    ensures Total(ns, OfDrift) == 0
  {
    if ns != [] {
      NoDrift(ns[..|ns| - 1]);
    }
  }

  lemma TermsWhenQuiet(inv: Invoice)
    requires WellFormed(inv) && Clean(inv) && Quiet(inv)
    ensures TermOf(inv, Drifted) == TermOf(inv, Stranded) == 0
    ensures TermOf(inv, Miscounted) >= 0
    ensures TermOf(inv, Miscounted) == 0 <==> !FullyRecognizedWriteOff(inv)
  {
    forall n | 0 <= n < |inv.notes| ensures Weight(inv.notes[n], OfDrift) == 0 {
      assert NoteOk(inv.notes[n]);
    }
    NoDrift(inv.notes);
  }

  lemma {:induction false} SumsWhenQuiet(b: Books, n: nat)
    requires Orderly(b) && Quiescent(b.invoices) && n <= |b.invoices|
    ensures Sum(b.invoices[..n], InFlight) == Sum(b.invoices[..n], Unscheduled) == 0
    ensures Sum(b.invoices[..n], Drifted) == Sum(b.invoices[..n], Stranded) == 0
    ensures Sum(b.invoices[..n], Miscounted) >= 0
    ensures Sum(b.invoices[..n], Miscounted) == 0 <==>
        forall i :: 0 <= i < n ==> !FullyRecognizedWriteOff(b.invoices[i])
  {
    if n > 0 {
      assert b.invoices[..n][..n - 1] == b.invoices[..n - 1];
      SumsWhenQuiet(b, n - 1);
      assert Quiet(b.invoices[n - 1]);
      TermsWhenQuiet(b.invoices[n - 1]);
    }
  }

  /** The tie-out over whole runs: when statements succeed and do not overtake each other, and nothing is half done at
      the moment of the report, the books tie if and only if no subscription invoice was written off after all of its
      revenue was recognized. */
  lemma OrderlyRunTiesIff(steps: seq<Step>)
    requires OrderlyRun(EMPTY_BOOKS, steps)
    requires Quiescent(Run(EMPTY_BOOKS, steps).invoices)
    ensures var b := Run(EMPTY_BOOKS, steps);
            UnexplainedDelta(b) == 0 <==> forall i :: 0 <= i < |b.invoices| ==> !FullyRecognizedWriteOff(b.invoices[i])
  {
    OrderlyRunStays(EMPTY_BOOKS, steps);
    var b := Run(EMPTY_BOOKS, steps);
    TieOut(b);
    SumsWhenQuiet(b, |b.invoices|);
    assert b.invoices[..|b.invoices|] == b.invoices;
  }

  // ---- Backfilling a schedule ----

  lemma {:induction false} SumAfterUpdate(invs: seq<Invoice>, i: nat, r: Invoice, t: Term)
    requires i < |invs|
    ensures Sum(invs[i := r], t) == Sum(invs, t) - TermOf(invs[i], t) + TermOf(r, t)
  {
    var n := |invs| - 1;
    if i == n {
      assert invs[i := r][..n] == invs[..n];
    } else {
      assert invs[i := r][..n] == invs[..n][i := r];
      SumAfterUpdate(invs[..n], i, r, t);
    }
  }

  lemma SameTerms(invs: seq<Invoice>, i: nat, r: Invoice)
    requires i < |invs| && forall t: Term :: t != Scheduled ==> TermOf(r, t) == TermOf(invs[i], t)
    ensures forall t: Term :: t != Scheduled ==> Sum(invs[i := r], t) == Sum(invs, t)
  {
    forall t: Term | t != Scheduled ensures Sum(invs[i := r], t) == Sum(invs, t) {
      SumAfterUpdate(invs, i, r, t);
    }
  }

  lemma SameDelta(b: Books, c: Books)
    requires Inv(b) && Inv(c) && c.lost == b.lost
    requires forall t: Term :: t != Scheduled ==> Sum(c.invoices, t) == Sum(b.invoices, t)
    ensures UnexplainedDelta(c) == UnexplainedDelta(b)
  {
    TieOut(b);
    TieOut(c);
  }

  lemma {:induction false} AwaitingAfterUpdate(invs: seq<Invoice>, i: nat, r: Invoice, rows: seq<Transfer>)
    requires i < |invs|
    ensures Awaiting(invs[i := r], rows) == Awaiting(invs, rows) - AwaitingOf(invs[i], i, rows) + AwaitingOf(r, i, rows)
  {
    var n := |invs| - 1;
    if i == n {
      assert invs[i := r][..n] == invs[..n];
    } else {
      assert invs[i := r][..n] == invs[..n][i := r];
      AwaitingAfterUpdate(invs[..n], i, r, rows);
    }
  }

  /** Backfilling a schedule for an open invoice only moves its pre-tax value from the awaiting bucket to the
      scheduled one: the ledger, the sum of the two and the tie-out stay as they were, if and only if the event rows
      were written too (or there is nothing to schedule). */
  lemma BackfillMovesBuckets(b: Books, i: nat, months: nat, filled: bool)
    requires Inv(b) && i < |b.invoices|
    requires b.invoices[i].subscription && b.invoices[i].status == Open && !b.invoices[i].active
    ensures var c := Next(b, Schedule(i, months, filled));
            && c.rows == b.rows
            && Awaiting(c.invoices, c.rows) == Awaiting(b.invoices, b.rows) - PreTax(b.invoices[i])
            && Sum(c.invoices, Scheduled) == Sum(b.invoices, Scheduled) + (if filled then PreTax(b.invoices[i]) else 0)
            && (UnexplainedDelta(c) == UnexplainedDelta(b) <==> filled || PreTax(b.invoices[i]) == 0)
  {
    var inv := b.invoices[i];
    assert WellFormed(inv);
    var r := WithSchedule(inv, months, filled);
    assert Next(b, Schedule(i, months, filled)).invoices == b.invoices[i := r];
    SumAfterUpdate(b.invoices, i, r, Scheduled);
    AwaitingAfterUpdate(b.invoices, i, r, b.rows);
    if PreTax(inv) > 0 {
      AllocationConserves(PreTax(inv), if months < 1 then 1 else months);
    }
  }

  /** Running the backfill again changes nothing, even where the first time left a schedule without events. */
  lemma BackfillIsIdempotent(b: Books, i: nat, months: nat, filled: bool, again: nat, refilled: bool)
    ensures var c := Next(b, Schedule(i, months, filled)); Next(c, Schedule(i, again, refilled)) == c
  {
  }

  // ---- The report ----

  datatype DeferredView = DeferredView(closing: int, recognition: Option<int>, awaiting: int, delta: int, ties: bool)

  function AllEvents(invs: seq<Invoice>): seq<Event> {
    if invs == [] then [] else AllEvents(invs[..|invs| - 1]) + invs[|invs| - 1].events
  }

  lemma {:induction false} ScheduledIsPending(invs: seq<Invoice>)
    ensures Sum(invs, Scheduled) == Held(AllEvents(invs), Pending)
  {
    if invs != [] {
      ScheduledIsPending(invs[..|invs| - 1]);
      HeldConcat(AllEvents(invs[..|invs| - 1]), invs[|invs| - 1].events, Pending);
    }
  }

  /** Deferred by the ledger, by no schedule, and not reversed by a write-off. */
  predicate AwaitsPayment(inv: Invoice) {
    && inv.subscription && !inv.active
    && (inv.status == Open || (inv.status == Uncollectible && !(inv.writtenOff && inv.reversed > 0)))
  }

  function AwaitingPreTax(invs: seq<Invoice>): int {
    if invs == [] then 0
    else AwaitingPreTax(invs[..|invs| - 1])
         + (if AwaitsPayment(invs[|invs| - 1]) then invs[|invs| - 1].total - invs[|invs| - 1].tax else 0)
  }

  lemma {:induction false} AwaitingIsPreTax(b: Books, n: nat)
    requires Inv(b) && n <= |b.invoices|
    ensures Awaiting(b.invoices[..n], b.rows) == AwaitingPreTax(b.invoices[..n])
  {
    if n > 0 {
      AwaitingIsPreTax(b, n - 1);
      WriteOffLegIff(b, n - 1);
      assert b.invoices[..n][..n - 1] == b.invoices[..n - 1];
    }
  }

  /** What the deferred section of the report says of the books, field by field: the pending events of all schedules,
      the pre-tax value of the invoices that await payment, and what neither explains of the closing balance. */
  predicate IsReport(b: Books, end: int, revrec: bool, unscheduled: bool, v: DeferredView) {
    && v.closing == BalanceBefore(b.rows, DeferredRevenue, end)
    && v.recognition == (if revrec then Some(Held(AllEvents(b.invoices), Pending) as int) else None)
    && v.awaiting == (if revrec && unscheduled then AwaitingPreTax(b.invoices) else 0)
    && v.delta == (if revrec then v.closing - v.recognition.value - v.awaiting else 0)
    && v.ties == (revrec && v.delta == 0)
  }

  /** GetDeferredRollforward: opening, added and released over [start, end); closing is derived from them. */
  method DeferredRollforward(rows: seq<Transfer>, start: int, end: int)
    returns (opening: int, added: nat, released: nat)
    requires start <= end
    requires forall j :: 0 <= j < |rows| ==> rows[j].debit != rows[j].credit
    ensures opening == BalanceBefore(rows, DeferredRevenue, start)
    ensures opening + added - released == BalanceBefore(rows, DeferredRevenue, end)
  {
    opening, added, released := 0, 0, 0;
    for j := 0 to |rows|
      invariant opening == BalanceBefore(rows[..j], DeferredRevenue, start)
      invariant opening + added - released == BalanceBefore(rows[..j], DeferredRevenue, end)
    {
      assert rows[..j + 1][..j] == rows[..j];
      var t := rows[j];
      if t.at < start {
        opening := opening + (if t.credit == DeferredRevenue then t.amount
                              else if t.debit == DeferredRevenue then -(t.amount as int) else 0);
      } else if t.at < end {
        if t.credit == DeferredRevenue {
          added := added + t.amount;
        }
        if t.debit == DeferredRevenue {
          released := released + t.amount;
        }
      }
    }
    assert rows[..|rows|] == rows;
  }

  /** The deferred section of Generate.  Both readers are optional: without the schedules nothing is compared, without
      the awaiting bucket it counts as zero. */
  method GenerateDeferred(b: Books, start: int, end: int, revrec: bool, unscheduled: bool) returns (v: DeferredView)
    requires start <= end && Inv(b)
    ensures IsReport(b, end, revrec, unscheduled, v)
    ensures revrec && unscheduled ==> v.delta == UnexplainedDelta(b) - MovedFrom(b.rows, DeferredRevenue, end)
    ensures revrec && !unscheduled ==>
              v.delta == UnexplainedDelta(b) + Awaiting(b.invoices, b.rows) - MovedFrom(b.rows, DeferredRevenue, end)
  {
    assert forall j :: 0 <= j < |b.rows| ==> Justified(b.invoices, b.rows[j]);
    var opening, added, released := DeferredRollforward(b.rows, start, end);
    v := DeferredView(opening + added - released, None, 0, 0, false);
    if revrec {
      v := v.(recognition := Some(Sum(b.invoices, Scheduled)));
      if unscheduled {
        v := v.(awaiting := Awaiting(b.invoices, b.rows));
      }
      v := v.(delta := v.closing - v.recognition.value - v.awaiting);
      v := v.(ties := v.delta == 0);
    }
    BalanceSplit(b.rows, DeferredRevenue, end);
    ScheduledIsPending(b.invoices);
    AwaitingIsPreTax(b, |b.invoices|);
    assert b.invoices[..|b.invoices|] == b.invoices;
  }

  /** On the reports before and after it: backfilling an open invoice takes its pre-tax value out of what awaits
      payment, and puts it into what is scheduled when the event rows were written; the difference stays the same if
      and only if they were, or there was nothing to schedule. */
  lemma BackfillMovesReport(b: Books, i: nat, months: nat, filled: bool, end: int, v: DeferredView, w: DeferredView)
    requires Inv(b) && i < |b.invoices|
    requires b.invoices[i].subscription && b.invoices[i].status == Open && !b.invoices[i].active
    requires IsReport(b, end, true, true, v) && IsReport(Next(b, Schedule(i, months, filled)), end, true, true, w)
    ensures var preTax := PreTax(b.invoices[i]);
            && w.closing == v.closing && w.awaiting == v.awaiting - preTax
            && w.recognition.value == v.recognition.value + (if filled then preTax else 0)
            && (w.delta == v.delta <==> filled || preTax == 0)
  {
    var c := Next(b, Schedule(i, months, filled));
    StepInv(b, Schedule(i, months, filled));
    BackfillMovesBuckets(b, i, months, filled);
    ScheduledIsPending(b.invoices);
    ScheduledIsPending(c.invoices);
    AwaitingIsPreTax(b, |b.invoices|);
    AwaitingIsPreTax(c, |c.invoices|);
    assert b.invoices[..|b.invoices|] == b.invoices && c.invoices[..|c.invoices|] == c.invoices;
    assert WellFormed(b.invoices[i]);
  }

  /** Net movement of an account by the postings at or after a moment. */
  function MovedFrom(rows: seq<Transfer>, a: Account, moment: int): int {
    if rows == [] then 0
    else
      var t := rows[|rows| - 1];
      MovedFrom(rows[..|rows| - 1], a, moment) + (if t.at < moment then 0 else Effect(t, a))
  }

  lemma {:induction false} BalanceSplit(rows: seq<Transfer>, a: Account, moment: int)
    ensures Balance(rows, a) == BalanceBefore(rows, a, moment) + MovedFrom(rows, a, moment)
  {
    if rows != [] {
      BalanceSplit(rows[..|rows| - 1], a, moment);
    }
  }

  // ---- Blockers ----

  datatype Blocker = OutOfBalance(debits: int, credits: int) | Discrepancies(count: int)

  function CloseBlockers(totalDebits: int, totalCredits: int, discrepancies: int): seq<Blocker> {
    (if totalDebits != totalCredits then [OutOfBalance(totalDebits, totalCredits)] else []) +
    (if discrepancies > 0 then [Discrepancies(discrepancies)] else [])
  }

  /** Each blocker is listed exactly when there is something to report, with its figures. */
  lemma BlockersAre(totalDebits: int, totalCredits: int, discrepancies: int, blocker: Blocker)
    ensures blocker in CloseBlockers(totalDebits, totalCredits, discrepancies) <==>
              match blocker
              case OutOfBalance(d, c) => d == totalDebits && c == totalCredits && d != c
              case Discrepancies(n) => n == discrepancies && n > 0
  {
  }

  /** Over any ledger, a period is ready to close exactly when reconciliation finds nothing: double entry leaves the
      balance blocker no way to appear. */
  lemma ReadyToCloseIff(rows: seq<Transfer>, discrepancies: int)
    ensures CloseBlockers(TotalDebits(rows), TotalCredits(rows), discrepancies) == [] <==> discrepancies <= 0
    ensures forall blocker :: blocker in CloseBlockers(TotalDebits(rows), TotalCredits(rows), discrepancies) ==>
              blocker == Discrepancies(discrepancies)
  {
    TrialBalance(rows);
  }
}

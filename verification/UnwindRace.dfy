/**
  A refund's unwind before it begins (internal/service/revrec.go:206-270): it
  reads what is pending, updates the events one by one and posts a reversal of
  what it read, while the recognition worker claims, posts and requeues events.
  When it can take more out of Deferred Revenue than is there.
 */
module UnwindRace {
  import opened Ledger
  import opened RevenueSchedule
  import opened DeferredBooks
  import opened DeferredBooksInvariant
  import opened BookRuns
  import opened RecognitionRace

  function Net(inv: Invoice, n: nat): int
    requires n < |inv.notes|
  {
    inv.notes[n].amount - inv.notes[n].tax
  }

  /** The most that the unwind of refund `n` can come to reverse: claimed events may be requeued before it reads. */
  function MostReversed(inv: Invoice, n: nat): int
    requires n < |inv.notes|
  {
    if !inv.active then 0
    else if Net(inv, n) < Recognizable(inv) then Net(inv, n)
    else Recognizable(inv)
  }

  /** Of the invoice's unwinds, only that of refund `n` begins. */
  predicate OnlyUnwind(steps: seq<Step>, i: nat, n: nat) {
    forall j :: 0 <= j < |steps| && steps[j].LoadPending? && steps[j].i == i ==> steps[j].n == n
  }

  /** A paid and scheduled subscription invoice no unwind of which, but that of refund `n`, is under way. */
  predicate Scheduled(inv: Invoice, n: nat) {
    && inv.subscription && inv.status == Paid && inv.events != [] && n < |inv.notes|
    && forall m :: 0 <= m < |inv.notes| && m != n ==> !inv.notes[m].unwind.Editing?
  }

  // ---- No continuation goes below ----

  /** The planned amounts are still those of the events, whatever has become of their statuses. */
  ghost predicate AsRead(es: seq<Event>, edits: seq<Edit>) {
    && (forall m :: 0 <= m < |edits| && !edits[m].Close? ==>
          edits[m].k < |es| && es[edits[m].k].amount == edits[m].was && Cut(edits[m]) >= 0)
    && (forall m, n :: 0 <= m < n < |edits| && !edits[m].Close? && !edits[n].Close? ==> edits[m].k != edits[n].k)
  }

  /** What the unwind still threatens to reverse is within the margin. */
  ghost predicate Room(inv: Invoice, n: nat)
    requires n < |inv.notes|
  {
    match inv.notes[n].unwind
    case Loading => MostReversed(inv, n) <= Margin(inv)
    case Editing(edits, reverse) => reverse <= Margin(inv) && AsRead(inv.events, edits)
    case _ => 0 <= Margin(inv)
  }

  ghost predicate Safe(inv: Invoice, n: nat) {
    WellFormed(inv) && Scheduled(inv, n) && Room(inv, n)
  }

  lemma SafeMove(inv: Invoice, n: nat, k: nat, to: EventStatus)
    requires Safe(inv, n) && k < |inv.events| && inv.events[k].status in {Pending, Processing} && to != Canceled
    ensures var r := inv.(events := SetStatus(inv.events, k, to)); Scheduled(r, n) && Room(r, n)
  {
    MarginOfMove(inv, k, to);
    HeldAfterSet(inv.events, k, to, Pending);
    HeldAfterSet(inv.events, k, to, Processing);
  }

  lemma SafeRefund(inv: Invoice, n: nat, s: Step)
    requires Safe(inv, n) && s.Refund? && Applies(inv, s)
    ensures var r := Refunding(inv, s.i, s).0; Scheduled(r, n) && Room(r, n)
  {
    var ns := Refunding(inv, s.i, s).0.notes;
    TotalSnoc(inv.notes, ns[|inv.notes|], OfReversal);
    MarginOfNotes(inv, ns);
  }

  lemma SafeOutcome(inv: Invoice, n: nat, m: nat, outcome: Outcome)
    requires Safe(inv, n) && m < |inv.notes|
    ensures Scheduled(WithOutcome(inv, m, outcome), n) && Room(WithOutcome(inv, m, outcome), n)
  {
    var ns := WithOutcome(inv, m, outcome).notes;
    TotalUpdate(inv.notes, m, ns[m], OfReversal);
    MarginOfNotes(inv, ns);
  }

  lemma SafeLoad(inv: Invoice, n: nat, ok: bool)
    requires Safe(inv, n) && inv.notes[n].unwind == Loading
    ensures var r := inv.(notes := inv.notes[n := inv.notes[n].(unwind := Loaded(inv, inv.notes[n], ok))]);
            Scheduled(r, n) && Room(r, n)
  {
    var ns := inv.notes[n := inv.notes[n].(unwind := Loaded(inv, inv.notes[n], ok))];
    TotalUpdate(inv.notes, n, ns[n], OfReversal);
    MarginOfNotes(inv, ns);
    var reverse := Reversible(inv.active, inv.events, Net(inv, n));
    TailEditsPlan(inv.events, reverse);
    PlanIsAsRead(inv.events, TailEdits(inv.events, reverse));
    AsReadClose(inv.events, TailEdits(inv.events, reverse));
  }

  lemma PlanIsAsRead(es: seq<Event>, edits: seq<Edit>)
    requires PlanOk(es, edits)
    ensures AsRead(es, edits)
  {
    forall m | 0 <= m < |edits| && !edits[m].Close?
        ensures edits[m].k < |es| && es[edits[m].k].amount == edits[m].was && Cut(edits[m]) >= 0 {
      assert Untouched(es, edits[m]);
    }
  }

  lemma AsReadClose(es: seq<Event>, edits: seq<Edit>)
    requires AsRead(es, edits)
    ensures AsRead(es, edits + [Close])
  {
  }

  /** A statement never gives back to the pending events, and leaves the others of its plan as they were read. */
  lemma EditOnlyTakes(es: seq<Event>, edits: seq<Edit>)
    requires AsRead(es, edits) && edits != []
    ensures AsRead(Perform(es, edits[0]), edits[1..])
    ensures Held(Perform(es, edits[0]), Pending) <= Held(es, Pending)
    ensures forall st :: st != Pending && st != Canceled ==> Held(Perform(es, edits[0]), st) == Held(es, st)
  {
    var e := edits[0];
    forall st | st != Pending && st != Canceled ensures Held(Perform(es, e), st) == Held(es, st) {
      PerformHeld(es, e, st);
    }
    if e.Cancel? && es[e.k].status == Pending {
      HeldAfterSet(es, e.k, Canceled, Pending);
    } else if e.Reduce? && es[e.k].status == Pending {
      HeldAfterAmount(es, e.k, e.keep, Pending);
    }
  }

  lemma SafeEdit(inv: Invoice, n: nat, ok: bool)
    requires Safe(inv, n) && inv.notes[n].unwind.Editing? && inv.notes[n].unwind.edits != []
    ensures Scheduled(EditingNext(inv, n, ok), n) && Room(EditingNext(inv, n, ok), n)
  {
    var ns := EditingNext(inv, n, ok).notes;
    TotalUpdate(inv.notes, n, ns[n], OfReversal);
    EditOnlyTakes(inv.events, inv.notes[n].unwind.edits);
  }

  lemma SafePost(inv: Invoice, i: nat, n: nat, posted: bool, at: int)
    requires Safe(inv, n) && inv.notes[n].unwind.Editing?
    ensures var r := PostingReversal(inv, i, n, posted, at).0; Scheduled(r, n) && Room(r, n)
  {
    var ns := PostingReversal(inv, i, n, posted, at).0.notes;
    TotalUpdate(inv.notes, n, ns[n], OfReversal);
  }

  lemma SafeUnwind(inv: Invoice, i: nat, n: nat, s: Step)
    requires Safe(inv, n) && Applies(inv, s) && (s.LoadPending? ==> s.n == n)
    requires s.LoadPending? || s.EditNext? || s.PostReversal?
    ensures var r := Evolve(inv, i, s).0; Scheduled(r, n) && Room(r, n)
  {
    assert s.n == n;
    if s.LoadPending? {
      SafeLoad(inv, n, s.ok);
    } else if s.EditNext? {
      SafeEdit(inv, n, s.ok);
    } else {
      SafePost(inv, i, n, s.posted, s.at);
    }
  }

  lemma OtherSteps(inv: Invoice, s: Step)
    requires WellFormed(inv) && inv.status == Paid && inv.events != [] && Applies(inv, s)
    requires !s.LoadPending? && !s.EditNext? && !s.PostReversal?
    ensures s.Claim? || s.Finish? || s.Requeue? || s.Schedule? || s.Refund? || s.Settle? || s.Bounce?
  {
  }

  lemma SafeEvolve(inv: Invoice, i: nat, n: nat, s: Step)
    requires Safe(inv, n) && Applies(inv, s) && s.i == i && (s.LoadPending? ==> s.n == n)
    ensures var r := Evolve(inv, i, s).0; Scheduled(r, n) && Room(r, n)
  {
    if s.LoadPending? || s.EditNext? || s.PostReversal? {
      SafeUnwind(inv, i, n, s);
    } else {
      OtherSteps(inv, s);
      if s.Refund? {
        SafeRefund(inv, n, s);
      } else if s.Settle? || s.Bounce? {
        SafeOutcome(inv, n, s.n, if s.Settle? then Settled else Bounced);
      } else if !s.Schedule? {
        SafeMove(inv, n, s.k, Evolve(inv, i, s).0.events[s.k].status);
      }
    }
  }

  lemma StaysSafe(b: Books, i: nat, n: nat, s: Step)
    requires Inv(b) && i < |b.invoices| && Safe(b.invoices[i], n)
    requires s.LoadPending? && s.i == i ==> s.n == n
    ensures Inv(Next(b, s)) && i < |Next(b, s).invoices| && Safe(Next(b, s).invoices[i], n)
  {
    StepInv(b, s);
    NextInvoice(b, s, i);
    if Takes(b, s) && s.i == i {
      SafeEvolve(b.invoices[i], i, n, s);
    }
  }

  lemma {:induction false} SafeRun(b: Books, i: nat, n: nat, steps: seq<Step>)
    requires Inv(b) && i < |b.invoices| && Safe(b.invoices[i], n) && OnlyUnwind(steps, i, n)
    ensures DeferredOf(Run(b, steps), i) >= 0
    decreases |steps|
  {
    if steps != [] {
      StaysSafe(b, i, n, steps[0]);
      SafeRun(Next(b, steps[0]), i, n, steps[1..]);
    }
  }

  // ---- A continuation that does ----

  function Count(es: seq<Event>, st: EventStatus): nat {
    if es == [] then 0 else Count(es[..|es| - 1], st) + (if es[|es| - 1].status == st then 1 else 0)
  }

  lemma {:induction false} CountAfterSet(es: seq<Event>, k: nat, to: EventStatus)
    requires k < |es| && es[k].status != to
    ensures Count(SetStatus(es, k, to), es[k].status) == Count(es, es[k].status) - 1
  {
    var n := |es| - 1;
    if k == n {
      assert SetStatus(es, k, to)[..n] == es[..n];
    } else {
      assert SetStatus(es, k, to)[..n] == SetStatus(es[..n], k, to);
      CountAfterSet(es[..n], k, to);
    }
  }

  lemma {:induction false} CountLeft(es: seq<Event>, st: EventStatus) returns (k: nat)
    ensures Count(es, st) > 0 ==> k < |es| && es[k].status == st
    ensures Count(es, st) == 0 ==> forall j :: 0 <= j < |es| ==> es[j].status != st
  {
    k := 0;
    if es != [] {
      k := CountLeft(es[..|es| - 1], st);
      if es[|es| - 1].status == st {
        k := |es| - 1;
      }
    }
  }

  function Other(st: EventStatus): EventStatus {
    if st == Pending then Processing else Pending
  }

  function MoveStep(i: nat, k: nat, from: EventStatus): Step {
    if from == Pending then Claim(i, k) else Requeue(i, k)
  }

  lemma MoveOne(inv: Invoice, k: nat, to: EventStatus)
    requires inv.subscription && k < |inv.events| && inv.events[k].status in {Pending, Processing}
    requires to == Other(inv.events[k].status)
    ensures var r := inv.(events := SetStatus(inv.events, k, to));
            Margin(r) == Margin(inv) && Recognizable(r) == Recognizable(inv)
  {
    MarginOfMove(inv, k, to);
    HeldAfterSet(inv.events, k, to, Pending);
    HeldAfterSet(inv.events, k, to, Processing);
  }

  lemma MovesOne(b: Books, i: nat, k: nat)
    requires Inv(b) && i < |b.invoices| && b.invoices[i].subscription
    requires k < |b.invoices[i].events| && b.invoices[i].events[k].status in {Pending, Processing}
    ensures var inv, from := b.invoices[i], b.invoices[i].events[k].status;
            var c := Next(b, MoveStep(i, k, from));
            && Inv(c) && i < |c.invoices| && c.invoices[i] == inv.(events := SetStatus(inv.events, k, Other(from)))
            && Margin(c.invoices[i]) == Margin(inv) && Recognizable(c.invoices[i]) == Recognizable(inv)
            && Count(c.invoices[i].events, from) == Count(inv.events, from) - 1
  {
    var from := b.invoices[i].events[k].status;
    StepInv(b, MoveStep(i, k, from));
    NextInvoice(b, MoveStep(i, k, from), i);
    CountAfterSet(b.invoices[i].events, k, Other(from));
    MoveOne(b.invoices[i], k, Other(from));
  }

  /** The worker claims every pending event, or puts every claimed one back. */
  lemma {:induction false} MoveAll(b: Books, i: nat, from: EventStatus) returns (steps: seq<Step>)
    requires Inv(b) && i < |b.invoices| && b.invoices[i].subscription && from in {Pending, Processing}
    ensures NoLoads(steps, i)
    ensures var c := Run(b, steps);
            && Inv(c) && i < |c.invoices| && c.invoices[i] == b.invoices[i].(events := c.invoices[i].events)
            && Margin(c.invoices[i]) == Margin(b.invoices[i])
            && Recognizable(c.invoices[i]) == Recognizable(b.invoices[i])
            && |c.invoices[i].events| == |b.invoices[i].events|
            && forall k :: 0 <= k < |c.invoices[i].events| ==> c.invoices[i].events[k].status != from
    decreases Count(b.invoices[i].events, from)
  {
    var inv := b.invoices[i];
    var k := CountLeft(inv.events, from);
    if Count(inv.events, from) == 0 {
      steps := [];
    } else {
      var s := MoveStep(i, k, from);
      MovesOne(b, i, k);
      var rest := MoveAll(Next(b, s), i, from);
      RunCons(b, s, rest);
      steps := [s] + rest;
    }
  }

  /** With nothing pending, the updates of an unwind find nothing. */
  lemma {:induction false} EditsMiss(b: Books, i: nat, n: nat) returns (steps: seq<Step>)
    requires Inv(b) && i < |b.invoices| && Scheduled(b.invoices[i], n) && b.invoices[i].notes[n].unwind.Editing?
    requires forall k :: 0 <= k < |b.invoices[i].events| ==> b.invoices[i].events[k].status != Pending
    ensures NoLoads(steps, i)
    ensures var c := Run(b, steps);
            && Inv(c) && i < |c.invoices| && Scheduled(c.invoices[i], n)
            && c.invoices[i].notes[n].unwind == Editing([], b.invoices[i].notes[n].unwind.reverse)
            && Margin(c.invoices[i]) == Margin(b.invoices[i])
    decreases |b.invoices[i].notes[n].unwind.edits|
  {
    var inv := b.invoices[i];
    if inv.notes[n].unwind.edits == [] {
      steps := [];
    } else {
      var s := EditNext(i, n, true);
      StepInv(b, s);
      NextInvoice(b, s, i);
      EditMissesAll(inv, n);
      var rest := EditsMiss(Next(b, s), i, n);
      RunCons(b, s, rest);
      steps := [s] + rest;
    }
  }

  lemma EditMissesAll(inv: Invoice, n: nat)
    requires Scheduled(inv, n) && inv.notes[n].unwind.Editing? && inv.notes[n].unwind.edits != []
    requires forall k :: 0 <= k < |inv.events| ==> inv.events[k].status != Pending
    ensures var r := EditingNext(inv, n, true);
            && r.events == inv.events && Scheduled(r, n) && Margin(r) == Margin(inv)
            && r.notes[n].unwind == Editing(inv.notes[n].unwind.edits[1..], inv.notes[n].unwind.reverse)
  {
    var r := EditingNext(inv, n, true);
    assert Perform(inv.events, inv.notes[n].unwind.edits[0]) == inv.events;
    TotalUpdate(inv.notes, n, r.notes[n], OfReversal);
  }

  lemma LoadsFully(inv: Invoice, n: nat)
    requires Scheduled(inv, n) && inv.notes[n].unwind == Loading && MostReversed(inv, n) > 0
    requires forall k :: 0 <= k < |inv.events| ==> inv.events[k].status != Processing
    ensures var unwind := Loaded(inv, inv.notes[n], true);
            var r := inv.(notes := inv.notes[n := inv.notes[n].(unwind := unwind)]);
            Scheduled(r, n) && unwind.Editing? && unwind.reverse == MostReversed(inv, n) && Margin(r) == Margin(inv)
  {
    HeldZeroIff(inv.events, Processing);
    TotalUpdate(inv.notes, n, inv.notes[n].(unwind := Loaded(inv, inv.notes[n], true)), OfReversal);
  }

  /** The unwind reads everything that is recognizable, and then loses it to the worker. */
  lemma LoadsAll(b: Books, i: nat, n: nat) returns (steps: seq<Step>)
    requires Inv(b) && i < |b.invoices| && Scheduled(b.invoices[i], n) && b.invoices[i].notes[n].unwind == Loading
    requires MostReversed(b.invoices[i], n) > 0
    ensures OnlyUnwind(steps, i, n)
    ensures var c := Run(b, steps);
            && Inv(c) && i < |c.invoices| && Scheduled(c.invoices[i], n)
            && c.invoices[i].notes[n].unwind.Editing?
            && c.invoices[i].notes[n].unwind.reverse == MostReversed(b.invoices[i], n)
            && Margin(c.invoices[i]) == Margin(b.invoices[i])
  {
    var back := MoveAll(b, i, Processing);
    var c := Run(b, back);
    var load := LoadPending(i, n, true);
    StepInv(c, load);
    NextInvoice(c, load, i);
    LoadsFully(c.invoices[i], n);
    RunCons(c, load, []);
    RunConcat(b, back, [load]);
    assert [load] + [] == [load];
    steps := back + [load];
  }

  lemma Overdraws(b: Books, i: nat, n: nat) returns (steps: seq<Step>)
    requires Inv(b) && i < |b.invoices| && Scheduled(b.invoices[i], n) && b.invoices[i].notes[n].unwind == Loading
    ensures OnlyUnwind(steps, i, n)
    ensures DeferredOf(Run(b, steps), i) == Margin(b.invoices[i]) - MostReversed(b.invoices[i], n)
  {
    if MostReversed(b.invoices[i], n) <= 0 {
      NothingReversed(b, i, n);
      steps := RecognizeAll(b, i);
    } else {
      var load := LoadsAll(b, i, n);
      var c := Run(b, load);
      var rest := LosesAll(c, i, n);
      RunConcat(b, load, rest);
      steps := load + rest;
    }
  }

  lemma NothingReversed(b: Books, i: nat, n: nat)
    requires Inv(b) && i < |b.invoices| && Scheduled(b.invoices[i], n) && MostReversed(b.invoices[i], n) <= 0
    ensures MostReversed(b.invoices[i], n) == 0
  {
    assert WellFormed(b.invoices[i]) && NoteOk(b.invoices[i].notes[n]);
  }

  lemma PostTakes(inv: Invoice, i: nat, n: nat)
    requires Scheduled(inv, n) && inv.notes[n].unwind.Editing?
    ensures var r := PostingReversal(inv, i, n, true, 0).0;
            Behind(r) && Margin(r) == Margin(inv) - inv.notes[n].unwind.reverse
  {
    TotalUpdate(inv.notes, n, PostingReversal(inv, i, n, true, 0).0.notes[n], OfReversal);
  }

  /** The reversal is posted, and everything recognizable recognized. */
  lemma PostsAndRecognizes(b: Books, i: nat, n: nat) returns (steps: seq<Step>)
    requires Inv(b) && i < |b.invoices| && Scheduled(b.invoices[i], n)
    requires b.invoices[i].notes[n].unwind.Editing? && b.invoices[i].notes[n].unwind.edits == []
    ensures NoLoads(steps, i)
    ensures DeferredOf(Run(b, steps), i) == Margin(b.invoices[i]) - b.invoices[i].notes[n].unwind.reverse
  {
    var post := PostReversal(i, n, true, 0);
    StepInv(b, post);
    NextInvoice(b, post, i);
    PostTakes(b.invoices[i], i, n);
    var rest := RecognizeAll(Next(b, post), i);
    RunCons(b, post, rest);
    steps := [post] + rest;
  }

  lemma LosesAll(b: Books, i: nat, n: nat) returns (steps: seq<Step>)
    requires Inv(b) && i < |b.invoices| && Scheduled(b.invoices[i], n) && b.invoices[i].notes[n].unwind.Editing?
    ensures NoLoads(steps, i)
    ensures DeferredOf(Run(b, steps), i) == Margin(b.invoices[i]) - b.invoices[i].notes[n].unwind.reverse
  {
    var claims := MoveAll(b, i, Pending);
    var c := Run(b, claims);
    var edits := EditsMiss(c, i, n);
    var rest := PostsAndRecognizes(Run(c, edits), i, n);
    RunConcat(c, edits, rest);
    RunConcat(b, claims, edits + rest);
    steps := claims + (edits + rest);
  }

  /** Before the unwind of a refund of a paid and scheduled invoice: every continuation without another unwind keeps
      the invoice's Deferred from going negative if and only if the most this one can reverse fits into what Deferred
      carries beyond the recognizable. */
  lemma UnwindOverdrawsIff(b: Books, i: nat, n: nat)
    requires Inv(b) && i < |b.invoices| && Scheduled(b.invoices[i], n) && b.invoices[i].notes[n].unwind == Loading
    ensures (forall steps :: OnlyUnwind(steps, i, n) ==> DeferredOf(Run(b, steps), i) >= 0)
            <==> MostReversed(b.invoices[i], n) + Recognizable(b.invoices[i]) <= Share(b.invoices[i], DeferredRevenue)
  {
    if MostReversed(b.invoices[i], n) <= Margin(b.invoices[i]) {
      forall steps | OnlyUnwind(steps, i, n) ensures DeferredOf(Run(b, steps), i) >= 0 {
        SafeRun(b, i, n, steps);
      }
    } else {
      var steps := Overdraws(b, i, n);
      assert OnlyUnwind(steps, i, n) && DeferredOf(Run(b, steps), i) < 0;
    }
  }
}

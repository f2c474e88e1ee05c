/**
  What a write-off does to the books (internal/service/ledger.go:560-674,
  internal/service/revrec.go:112-137), and when it keeps the tie-out.
 */
module WriteOffBooks {
  import opened Ledger
  import opened RevenueSchedule
  import opened DeferredBooks
  import opened DeferredBooksInvariant
  import opened BookRuns
  import opened ClosePack
  import W = WriteOffRecovery

  // ---- A write-off that nothing interrupts ----

  function Voids(i: nat, n: nat): seq<Step> {
    if n == 0 then [] else [VoidNext(i, true)] + Voids(i, n - 1)
  }

  /** All the statements of a write-off, in order, each succeeding. */
  function WriteOffSteps(inv: Invoice, i: nat, at: int): seq<Step> {
    [MarkUncollectible(i), ReadRecognized(i, true), PostWriteOff(i, true, at), LoadVoids(i, true)]
    + (if inv.active then Voids(i, |VoidEdits(inv.events)| + 1) else [])
  }

  function StillDeferred(inv: Invoice): int {
    PreTax(inv) - SeenRecognized(inv, true)
  }

  /** The legs they post. */
  function LegsOf(inv: Invoice, i: nat, at: int): seq<Leg> {
    WriteOffLegs(i, StillDeferred(inv), SeenRecognized(inv, true), inv.tax, at)
  }

  /** What they come to together. */
  function WrittenOff(inv: Invoice): Invoice {
    inv.(status := Uncollectible, writeOff := Over, writtenOff := true, reversed := StillDeferred(inv), active := false,
         events := if inv.active then CancelPending(inv.events) else inv.events,
         voided := if inv.active then Held(inv.events, Pending) else 0)
  }

  /** An invoice after all its remaining voids. */
  function Voided(inv: Invoice): Invoice
    requires inv.writeOff.Voiding?
  {
    var es := PerformAll(inv.events, inv.writeOff.edits);
    inv.(events := es, active := false, writeOff := Over,
         voided := inv.voided + Held(inv.events, Pending) - Held(es, Pending))
  }

  lemma VoidedOne(inv: Invoice)
    requires inv.writeOff == Voiding([Close])
    ensures Voided(inv) == VoidingNext(inv, true)
  {
    assert PerformAll(inv.events, [Close]) == PerformAll(Perform(inv.events, Close), [Close][1..]);
  }

  lemma VoidedMore(inv: Invoice)
    requires inv.writeOff.Voiding? && |inv.writeOff.edits| > 1
    ensures VoidingNext(inv, true).writeOff == Voiding(inv.writeOff.edits[1..])
    ensures Voided(inv).(active := false) == Voided(VoidingNext(inv, true))
  {
  }

  lemma {:induction false} VoidsRun(b: Books, i: nat, inv: Invoice)
    requires i < |b.invoices| && inv.writeOff.Voiding?
    requires var edits := inv.writeOff.edits; edits != [] && edits[|edits| - 1] == Close
    ensures Run(With(b, i, inv), Voids(i, |inv.writeOff.edits|)) == With(b, i, Voided(inv))
    ensures OrderlyRun(With(b, i, inv), Voids(i, |inv.writeOff.edits|))
    decreases |inv.writeOff.edits|
  {
    var edits := inv.writeOff.edits;
    var s := VoidNext(i, true);
    NextWith(b, i, inv, s);
    RunCons(With(b, i, inv), s, Voids(i, |edits| - 1));
    if |edits| == 1 {
      assert edits == [Close];
      VoidedOne(inv);
    } else {
      VoidedMore(inv);
      VoidsRun(b, i, VoidingNext(inv, true));
    }
  }

  /** An invoice once the write-off legs are posted. */
  function LegsPosted(inv: Invoice): Invoice {
    inv.(status := Uncollectible, writtenOff := true, reversed := StillDeferred(inv), writeOff := Listing)
  }

  /** The posting of the legs. */
  lemma PostedWith(b: Books, i: nat, split: Invoice, at: int) returns (c: Books)
    requires i < |b.invoices| && split.writeOff.Splitting? && split.total > 0
    ensures c.invoices == b.invoices && c.lost == b.lost
    ensures c.rows == AttemptAll(b.rows, b.lost, PostingWriteOff(split, i, true, at).1).0
    ensures Next(With(b, i, split), PostWriteOff(i, true, at)) == With(c, i, PostingWriteOff(split, i, true, at).0)
  {
    var legs := PostingWriteOff(split, i, true, at).1;
    AllPosted(b.rows, b.lost, legs);
    c := b.(rows := AttemptAll(b.rows, b.lost, legs).0);
    assert b.invoices[i := split][i := PostingWriteOff(split, i, true, at).0]
        == b.invoices[i := PostingWriteOff(split, i, true, at).0];
  }

  /** Up to the posting. */
  lemma WriteOffReads(b: Books, i: nat, inv: Invoice)
    requires i < |b.invoices| && inv.status == Open
    ensures var split := inv.(status := Uncollectible, writeOff := Splitting(SeenRecognized(inv, true)));
            Next(Next(With(b, i, inv), MarkUncollectible(i)), ReadRecognized(i, true)) == With(b, i, split)
    ensures Held(inv.events, Processing) == 0 ==>
              && OrderlyStep(With(b, i, inv), MarkUncollectible(i))
              && OrderlyStep(Next(With(b, i, inv), MarkUncollectible(i)), ReadRecognized(i, true))
  {
    NextWith(b, i, inv, MarkUncollectible(i));
    NextWith(b, i, inv.(status := Uncollectible, writeOff := Reading), ReadRecognized(i, true));
  }

  /** And once its voids are listed. */
  function Listed(inv: Invoice): Invoice {
    LegsPosted(inv).(writeOff := if inv.active then Voiding(VoidEdits(inv.events) + [Close]) else Over)
  }

  function FirstFour(i: nat, at: int): seq<Step> {
    [MarkUncollectible(i), ReadRecognized(i, true), PostWriteOff(i, true, at), LoadVoids(i, true)]
  }

  /** The first four statements. */
  lemma WriteOffPosts(b: Books, i: nat, at: int) returns (c: Books)
    requires i < |b.invoices| && b.invoices[i].status == Open && b.invoices[i].total > 0
    requires b.invoices[i].writeOff == NoWriteOff
    ensures c.lost == b.lost && c.invoices == b.invoices
    ensures c.rows == AttemptAll(b.rows, b.lost, LegsOf(b.invoices[i], i, at)).0
    ensures Run(b, FirstFour(i, at)) == With(c, i, Listed(b.invoices[i]))
    ensures Held(b.invoices[i].events, Processing) == 0 ==> OrderlyRun(b, FirstFour(i, at))
  {
    var inv := b.invoices[i];
    assert b.invoices[i := inv] == b.invoices && With(b, i, inv) == b;
    var split := inv.(status := Uncollectible, writeOff := Splitting(SeenRecognized(inv, true)));
    WriteOffReads(b, i, inv);
    c := PostedWith(b, i, split, at);
    assert PostingWriteOff(split, i, true, at) == (LegsPosted(inv), LegsOf(inv, i, at));
    NextWith(c, i, LegsPosted(inv), LoadVoids(i, true));
    RunFour(b, MarkUncollectible(i), ReadRecognized(i, true), PostWriteOff(i, true, at), LoadVoids(i, true));
  }

  /** Uninterrupted, a write-off flips the status, splits the pre-tax value at what is recognized, and cancels what is
      pending. */
  lemma WriteOffRuns(b: Books, i: nat, at: int)
    requires Inv(b) && i < |b.invoices| && b.invoices[i].status == Open && b.invoices[i].total > 0
    ensures var c := Run(b, WriteOffSteps(b.invoices[i], i, at));
            && c.invoices == b.invoices[i := WrittenOff(b.invoices[i])] && c.lost == b.lost && Inv(c)
            && c.rows == AttemptAll(b.rows, b.lost, LegsOf(b.invoices[i], i, at)).0
    ensures Held(b.invoices[i].events, Processing) == 0 ==> OrderlyRun(b, WriteOffSteps(b.invoices[i], i, at))
  {
    var inv := b.invoices[i];
    RunInv(b, WriteOffSteps(inv, i, at));
    WriteOffIsOpen(inv);
    WriteOffStatements(b, i, at);
  }

  lemma WriteOffIsOpen(inv: Invoice)
    requires WellFormed(inv) && inv.status == Open
    ensures inv.writeOff == NoWriteOff && inv.voided == 0
  {
  }

  lemma WriteOffStatements(b: Books, i: nat, at: int)
    requires i < |b.invoices| && b.invoices[i].status == Open && b.invoices[i].total > 0
    requires b.invoices[i].writeOff == NoWriteOff && b.invoices[i].voided == 0
    ensures var c := Run(b, WriteOffSteps(b.invoices[i], i, at));
            && c.invoices == b.invoices[i := WrittenOff(b.invoices[i])] && c.lost == b.lost
            && c.rows == AttemptAll(b.rows, b.lost, LegsOf(b.invoices[i], i, at)).0
    ensures Held(b.invoices[i].events, Processing) == 0 ==> OrderlyRun(b, WriteOffSteps(b.invoices[i], i, at))
  {
    var inv := b.invoices[i];
    var rest := if inv.active then Voids(i, |VoidEdits(inv.events)| + 1) else [];
    assert WriteOffSteps(inv, i, at) == FirstFour(i, at) + rest;
    RunConcat(b, FirstFour(i, at), rest);
    var c := WriteOffPosts(b, i, at);
    ListedVoids(c, i, inv, rest);
  }

  /** What is left to do once the voids are listed. */
  lemma ListedVoids(c: Books, i: nat, inv: Invoice, rest: seq<Step>)
    requires i < |c.invoices| && inv.voided == 0
    requires rest == if inv.active then Voids(i, |VoidEdits(inv.events)| + 1) else []
    ensures Run(With(c, i, Listed(inv)), rest) == With(c, i, WrittenOff(inv))
    ensures OrderlyRun(With(c, i, Listed(inv)), rest)
  {
    if inv.active {
      VoidsRun(c, i, Listed(inv));
      VoidsPerform(inv.events);
      assert Voided(Listed(inv)) == WrittenOff(inv);
    } else {
      assert Listed(inv) == WrittenOff(inv);
    }
  }

  lemma VoidsPerform(es: seq<Event>)
    ensures PerformAll(es, VoidEdits(es) + [Close]) == CancelPending(es)
    ensures Held(CancelPending(es), Pending) == 0
  {
    VoidEditsPerform(es);
    CancelPendingConserves(es);
    PerformAllConcat(es, VoidEdits(es), [Close]);
    assert [Close][1..] == [];
    var last := CancelPending(es);
    assert PerformAll(last, [Close]) == PerformAll(Perform(last, Close), []);
  }

  lemma {:induction false} PerformAllConcat(es: seq<Event>, xs: seq<Edit>, ys: seq<Edit>)
    ensures PerformAll(es, xs + ys) == PerformAll(PerformAll(es, xs), ys)
    decreases |xs|
  {
    if xs == [] {
      assert xs + ys == ys;
    } else {
      assert (xs + ys)[1..] == xs[1..] + ys;
      PerformAllConcat(Perform(es, xs[0]), xs[1..], ys);
    }
  }

  // ---- The ledger's own view of it ----

  /** The invoice as RecordInvoiceWriteOff sees it. */
  function AsBad(inv: Invoice, i: nat): W.Bad
    requires WellFormed(inv)
  {
    SeenWithin(inv, true);
    W.Bad(i, inv.subscription, inv.total, inv.tax, SeenRecognized(inv, true))
  }

  function Transfers(legs: seq<Leg>): seq<Transfer> {
    if legs == [] then [] else [legs[0].t] + Transfers(legs[1..])
  }

  lemma {:induction false} PostAllCons(rows: seq<Transfer>, t: Transfer, ts: seq<Transfer>)
    ensures PostAll(rows, [t] + ts) == PostAll(Post(rows, t), ts)
  {
    if ts == [] {
      assert [t] + ts == [t] && [t][..0] == [];
    } else {
      var n := |ts| - 1;
      PostAllCons(rows, t, ts[..n]);
      assert ([t] + ts)[..n + 1] == [t] + ts[..n];
    }
  }

  lemma {:induction false} AttemptsPost(rows: seq<Transfer>, lost: seq<Transfer>, legs: seq<Leg>)
    requires forall m :: 0 <= m < |legs| ==> legs[m].ok
    ensures AttemptAll(rows, lost, legs).0 == PostAll(rows, Transfers(legs))
    decreases |legs|
  {
    if legs != [] {
      var (r, l) := Attempt(rows, lost, legs[0]);
      AttemptsPost(r, l, legs[1..]);
      PostAllCons(rows, legs[0].t, Transfers(legs[1..]));
    }
  }

  lemma {:induction false} NoLegsNoCount(rows: seq<Transfer>, id: nat, code: nat)
    requires forall j :: 0 <= j < |rows| ==> !W.IsLeg(rows[j], id, code)
    ensures W.CountOf(rows, id, code) == 0
  {
    if rows != [] {
      NoLegsNoCount(rows[..|rows| - 1], id, code);
    }
  }

  lemma NotYetWrittenOff(b: Books, i: nat, code: nat)
    requires Inv(b) && i < |b.invoices| && !b.invoices[i].writtenOff && code in {22, 24}
    ensures W.CountOf(b.rows, i, code) == 0
  {
    forall j | 0 <= j < |b.rows| ensures !W.IsLeg(b.rows[j], i, code) {
      assert Justified(b.invoices, b.rows[j]);
    }
    NoLegsNoCount(b.rows, i, code);
  }

  lemma TransfersOfThree(c1: bool, l1: Leg, c2: bool, l2: Leg, c3: bool, l3: Leg)
    ensures Transfers((if c1 then [l1] else []) + (if c2 then [l2] else []) + (if c3 then [l3] else []))
         == (if c1 then [l1.t] else []) + (if c2 then [l2.t] else []) + (if c3 then [l3.t] else [])
  {
    TransfersConcat((if c1 then [l1] else []) + (if c2 then [l2] else []), if c3 then [l3] else []);
    TransfersConcat(if c1 then [l1] else [], if c2 then [l2] else []);
    assert Transfers([l1]) == [l1.t] && Transfers([l2]) == [l2.t] && Transfers([l3]) == [l3.t];
  }

  lemma {:induction false} TransfersConcat(xs: seq<Leg>, ys: seq<Leg>)
    ensures Transfers(xs + ys) == Transfers(xs) + Transfers(ys)
    decreases |xs|
  {
    if xs == [] {
      assert xs + ys == ys;
    } else {
      assert (xs + ys)[1..] == xs[1..] + ys;
      TransfersConcat(xs[1..], ys);
    }
  }

  lemma SameLegs(inv: Invoice, i: nat, at: int)
    requires WellFormed(inv) && inv.status == Open
    ensures Transfers(LegsOf(inv, i, at)) == W.WriteOffLegs(AsBad(inv, i), 0, at) && W.Sensible(AsBad(inv, i))
  {
    SeenWithin(inv, true);
    var seen := SeenRecognized(inv, true);
    var deferred := StillDeferred(inv);
    TransfersOfThree(deferred > 0,
                     Leg(Transfer(DeferredRevenue, Receivable, if deferred > 0 then deferred
                         else 0, 22, InvoiceRef(i), 0, at), true),
                     seen > 0, Leg(Transfer(BadDebt, Receivable, seen, 26, InvoiceRef(i), 0, at), true),
                     inv.tax > 0, Leg(Transfer(TaxPayable, Receivable, inv.tax, 23, InvoiceRef(i), 0, at), true));
  }

  lemma FirstCycle(rows: seq<Transfer>, bad: W.Bad, at: int)
    requires bad.total > 0 && W.CountOf(rows, bad.id, 22) == W.CountOf(rows, bad.id, 24) == 0
    ensures W.WriteOff(rows, bad, at) == PostAll(rows, W.WriteOffLegs(bad, 0, at))
  {
  }

  lemma SameRows(rows: seq<Transfer>, lost: seq<Transfer>, inv: Invoice, i: nat, at: int)
    requires WellFormed(inv) && inv.status == Open && inv.total > 0
    requires W.CountOf(rows, i, 22) == W.CountOf(rows, i, 24) == 0
    ensures AttemptAll(rows, lost, LegsOf(inv, i, at)).0 == W.WriteOff(rows, AsBad(inv, i), at)
  {
    FirstCycle(rows, AsBad(inv, i), at);
    SameLegs(inv, i, at);
    AttemptsPost(rows, lost, LegsOf(inv, i, at));
  }

  /** On the ledger, a first write-off of the machine is the first cycle of the write-off and recovery model. */
  lemma SameWriteOff(b: Books, i: nat, at: int)
    requires Inv(b) && i < |b.invoices| && b.invoices[i].status == Open && b.invoices[i].total > 0
    ensures WellFormed(b.invoices[i])
    ensures Run(b, WriteOffSteps(b.invoices[i], i, at)).rows == W.WriteOff(b.rows, AsBad(b.invoices[i], i), at)
  {
    WriteOffRuns(b, i, at);
    NotYetWrittenOff(b, i, 22);
    NotYetWrittenOff(b, i, 24);
    SameRows(b.rows, b.lost, b.invoices[i], i, at);
  }

  // ---- The tie-out across a write-off ----

  /** What a write-off does to the terms of the difference. */
  lemma WriteOffTerms(inv: Invoice)
    requires WellFormed(inv) && inv.status == Open && inv.subscription
    ensures var w := WrittenOff(inv);
            && TermOf(w, InFlight) == TermOf(inv, InFlight) == TermOf(w, Stranded) >= 0
            && TermOf(inv, Stranded) == TermOf(inv, Miscounted) == TermOf(w, Unscheduled) == 0
            && TermOf(w, Drifted) == TermOf(inv, Drifted)
            && TermOf(w, Miscounted) == (if StillDeferred(inv) == 0 then PreTax(inv) else 0)
            && 0 <= StillDeferred(inv) <= PreTax(inv)
  {
    CancelPendingConserves(inv.events);
    TotalOfNothing([]);
  }

  /** A write-off leaves the tie-out where it was exactly when none of the invoice's events is claimed or failed, its
      schedule is not an empty row, and something of it was still deferred (or it had no pre-tax value). */
  lemma WriteOffKeepsTieIff(b: Books, i: nat, at: int)
    requires Inv(b) && i < |b.invoices|
    requires b.invoices[i].status == Open && b.invoices[i].subscription && b.invoices[i].total > 0
    ensures var inv := b.invoices[i];
            UnexplainedDelta(Run(b, WriteOffSteps(inv, i, at))) == UnexplainedDelta(b) <==>
              && TermOf(inv, InFlight) == 0 && TermOf(inv, Unscheduled) == 0
              && (StillDeferred(inv) > 0 || PreTax(inv) == 0)
  {
    var inv := b.invoices[i];
    var w := WrittenOff(inv);
    assert WellFormed(inv);
    WriteOffRuns(b, i, at);
    TieOut(b);
    TieOut(Run(b, WriteOffSteps(inv, i, at)));
    SumAfterUpdate(b.invoices, i, w, InFlight);
    SumAfterUpdate(b.invoices, i, w, Unscheduled);
    SumAfterUpdate(b.invoices, i, w, Drifted);
    SumAfterUpdate(b.invoices, i, w, Stranded);
    SumAfterUpdate(b.invoices, i, w, Miscounted);
    WriteOffTerms(inv);
  }

  // ---- Runs that show it ----

  /** An invoice scheduled over one month, recognized, and then written off leaves the books not tying, whatever the
      amount, although every statement succeeds and nothing is left half done. */
  lemma FullyRecognizedWriteOffBreaksTie(total: nat) returns (steps: seq<Step>)
    requires total > 0
    ensures OrderlyRun(EMPTY_BOOKS, steps) && Quiescent(Run(EMPTY_BOOKS, steps).invoices)
    ensures UnexplainedDelta(Run(EMPTY_BOOKS, steps)) != 0
  {
    var claim := SampleClaimed(total);
    var earn := claim + [Finish(0, 0, true, 1)];
    var b := Run(EMPTY_BOOKS, claim);
    var e := Next(b, Finish(0, 0, true, 1));
    SampleFinishes(b, b.invoices[0], total, Finish(0, 0, true, 1));
    RunCons(b, Finish(0, 0, true, 1), []);
    RunConcat(EMPTY_BOOKS, claim, [Finish(0, 0, true, 1)]);
    assert [Finish(0, 0, true, 1)] + [] == [Finish(0, 0, true, 1)];
    EmptyInv();
    RunInv(EMPTY_BOOKS, earn);
    assert e.invoices[0] == Sample(total, Recognized);
    SampleHeld(total, Recognized);
    var off := WriteOffSteps(e.invoices[0], 0, 2);
    WriteOffRuns(e, 0, 2);
    RunConcat(EMPTY_BOOKS, earn, off);
    steps := earn + off;
    SampleWrittenOff(total);
    OrderlyRunTiesIff(steps);
  }

  lemma SampleWrittenOff(total: nat)
    requires total > 0
    ensures var w := WrittenOff(Sample(total, Recognized)); FullyRecognizedWriteOff(w) && Quiet(w)
  {
    SampleHeld(total, Recognized);
    CancelPendingConserves(Sample(total, Recognized).events);
    NoDrift([]);
  }
}

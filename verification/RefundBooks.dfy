/**
  What refunds do to the books (internal/service/credit_note.go:41-51, 477-514;
  internal/service/revrec.go:206-270): the accounts a refund touches, when they
  can go negative, and what stays in the Refunds expense.
 */
module RefundBooks {
  import opened Ledger
  import opened RevenueSchedule
  import opened TaxAllocation
  import opened DeferredBooks
  import opened DeferredBooksInvariant
  import opened BookRuns
  import opened ClosePack
  import opened WriteOffBooks

  // ---- A refund that nothing interrupts ----

  function Edits(i: nat, n: nat, m: nat): seq<Step> {
    if m == 0 then [] else [EditNext(i, n, true)] + Edits(i, n, m - 1)
  }

  /** An invoice after all the remaining updates of an unwind whose plan is intact. */
  function AllEdited(inv: Invoice, n: nat): Invoice
    requires n < |inv.notes| && inv.notes[n].unwind.Editing?
  {
    var note := inv.notes[n];
    var edits := note.unwind.edits;
    inv.(events := PerformAll(inv.events, edits), active := inv.active && Close !in edits,
         notes := inv.notes[n := note.(unwind := Editing([], note.unwind.reverse),
                                       taken := note.taken + Planned(edits))])
  }

  lemma AllEditedNone(inv: Invoice, n: nat)
    requires n < |inv.notes| && inv.notes[n].unwind.Editing? && inv.notes[n].unwind.edits == []
    ensures AllEdited(inv, n) == inv
  {
    assert inv.notes[n := inv.notes[n]] == inv.notes;
  }

  lemma AllEditedMore(inv: Invoice, n: nat)
    requires n < |inv.notes| && inv.notes[n].unwind.Editing? && inv.notes[n].unwind.edits != []
    requires PlanOk(inv.events, inv.notes[n].unwind.edits)
    ensures AllEdited(EditingNext(inv, n, true), n) == AllEdited(inv, n)
  {
    var edits := inv.notes[n].unwind.edits;
    EditTakes(inv, edits);
    assert Close in edits <==> edits[0] == Close || Close in edits[1..];
    var r := EditingNext(inv, n, true);
    assert r.notes[n].unwind.edits == edits[1..];
    assert AllEdited(r, n).notes == AllEdited(inv, n).notes;
  }

  lemma {:induction false} EditsRun(b: Books, i: nat, inv: Invoice, n: nat)
    requires i < |b.invoices| && n < |inv.notes| && inv.notes[n].unwind.Editing?
    requires PlanOk(inv.events, inv.notes[n].unwind.edits)
    ensures Run(With(b, i, inv), Edits(i, n, |inv.notes[n].unwind.edits|)) == With(b, i, AllEdited(inv, n))
    decreases |inv.notes[n].unwind.edits|
  {
    var edits := inv.notes[n].unwind.edits;
    if edits == [] {
      AllEditedNone(inv, n);
    } else {
      NextWith(b, i, inv, EditNext(i, n, true));
      RunCons(With(b, i, inv), EditNext(i, n, true), Edits(i, n, |edits| - 1));
      PlanSteps(inv.events, edits);
      AllEditedMore(inv, n);
      EditsRun(b, i, EditingNext(inv, n, true), n);
    }
  }

  /** All the statements of the unwind of refund `n`, in order, each succeeding. */
  function UnwindSteps(inv: Invoice, i: nat, n: nat, reverse: nat, at: int): seq<Step> {
    [LoadPending(i, n, true)] +
    (if reverse == 0 then []
     else Edits(i, n, |TailEdits(inv.events, reverse)| + (if reverse == Held(inv.events, Pending) then 1 else 0))
          + [PostReversal(i, n, true, at)])
  }

  /** What the statements of an unwind come to together: the tail of the schedule, latest first. */
  function AfterUnwind(inv: Invoice, n: nat, reverse: nat): Invoice
    requires n < |inv.notes|
  {
    inv.(events := UnwindTail(inv.events, reverse),
         active := inv.active && !(reverse > 0 && reverse == Held(inv.events, Pending)),
         notes := inv.notes[n := if reverse == 0 then inv.notes[n].(unwind := Dropped)
                                 else inv.notes[n].(unwind := Unwound(reverse), taken := reverse)])
  }

  lemma LoadedPlan(inv: Invoice, n: nat, reverse: nat) returns (edits: seq<Edit>)
    requires n < |inv.notes| && NoteOk(inv.notes[n]) && inv.notes[n].unwind == Loading && reverse > 0
    requires reverse == Reversible(inv.active, inv.events, inv.notes[n].amount - inv.notes[n].tax)
    ensures Loaded(inv, inv.notes[n], true) == Editing(edits, reverse) && PlanOk(inv.events, edits)
    ensures Planned(edits) == reverse && (Close in edits <==> reverse == Held(inv.events, Pending))
    ensures PerformAll(inv.events, edits) == UnwindTail(inv.events, reverse)
    ensures |edits| == |TailEdits(inv.events, reverse)| + (if reverse == Held(inv.events, Pending) then 1 else 0)
  {
    var tail := TailEdits(inv.events, reverse);
    TailEditsPlan(inv.events, reverse);
    TailEditsPerform(inv.events, reverse);
    NoClose(inv.events, reverse);
    if reverse == Held(inv.events, Pending) {
      edits := tail + [Close];
      PlanClose(inv.events, tail);
      PerformAllConcat(inv.events, tail, [Close]);
      PerformClose(UnwindTail(inv.events, reverse));
    } else {
      edits := tail;
      assert tail + [] == tail;
    }
  }

  lemma PerformClose(es: seq<Event>)
    ensures PerformAll(es, [Close]) == es
  {
    assert PerformAll(es, [Close]) == PerformAll(Perform(es, Close), [Close][1..]);
  }

  lemma {:induction false} NoClose(es: seq<Event>, amount: nat)
    ensures Close !in TailEdits(es, amount)
  {
    if es != [] && amount > 0 {
      var n := |es| - 1;
      NoClose(es[..n], amount);
      if amount >= es[n].amount {
        NoClose(es[..n], amount - es[n].amount);
      }
    }
  }

  /** Uninterrupted, the statements of an unwind take what is pending of the net refund off the schedule's tail,
      cancel a schedule they empty, and post exactly that much. */
  lemma UnwindRuns(b: Books, i: nat, n: nat, at: int)
    requires Inv(b) && b.lost == [] && i < |b.invoices| && n < |b.invoices[i].notes|
    requires b.invoices[i].notes[n].unwind == Loading
    ensures var inv := b.invoices[i];
            var reverse := Reversible(inv.active, inv.events, inv.notes[n].amount - inv.notes[n].tax);
            var c := Run(b, UnwindSteps(inv, i, n, reverse, at));
            c.invoices == b.invoices[i := AfterUnwind(inv, n, reverse)] && c.lost == [] && Inv(c)
  {
    var inv := b.invoices[i];
    var reverse := Reversible(inv.active, inv.events, inv.notes[n].amount - inv.notes[n].tax);
    RunInv(b, UnwindSteps(inv, i, n, reverse, at));
    assert WellFormed(inv) && NoteOk(inv.notes[n]);
    assert With(b, i, inv) == b by { assert b.invoices[i := inv] == b.invoices; }
    NextWith(b, i, inv, LoadPending(i, n, true));
    if reverse == 0 {
      RunCons(b, LoadPending(i, n, true), []);
      assert [LoadPending(i, n, true)] + [] == [LoadPending(i, n, true)];
    } else {
      UnwindStatements(b, i, inv, n, reverse, at);
    }
  }

  /** The plan carried out and its reversal posted. */
  lemma UnwoundIs(inv: Invoice, i: nat, n: nat, edits: seq<Edit>, reverse: nat, at: int)
    requires n < |inv.notes| && inv.notes[n].taken == 0 && reverse > 0
    requires Planned(edits) == reverse && (Close in edits <==> reverse == Held(inv.events, Pending))
    requires PerformAll(inv.events, edits) == UnwindTail(inv.events, reverse)
    ensures var done := AllEdited(inv.(notes := inv.notes[n := inv.notes[n].(unwind := Editing(edits, reverse))]), n);
            && Applies(done, PostReversal(i, n, true, at))
            && PostingReversal(done, i, n, true, at).0 == AfterUnwind(inv, n, reverse)
  {
    var loaded := inv.(notes := inv.notes[n := inv.notes[n].(unwind := Editing(edits, reverse))]);
    assert PostingReversal(AllEdited(loaded, n), i, n, true, at).0.notes == AfterUnwind(inv, n, reverse).notes;
  }

  lemma UnwindStatements(b: Books, i: nat, inv: Invoice, n: nat, reverse: nat, at: int)
    requires i < |b.invoices| && b == With(b, i, inv) && b.lost == []
    requires n < |inv.notes| && NoteOk(inv.notes[n]) && inv.notes[n].unwind == Loading && reverse > 0
    requires reverse == Reversible(inv.active, inv.events, inv.notes[n].amount - inv.notes[n].tax)
    ensures var c := Run(b, UnwindSteps(inv, i, n, reverse, at));
            c.invoices == b.invoices[i := AfterUnwind(inv, n, reverse)] && c.lost == []
  {
    var edits := LoadedPlan(inv, n, reverse);
    var loaded := inv.(notes := inv.notes[n := inv.notes[n].(unwind := Editing(edits, reverse))]);
    NextWith(b, i, inv, LoadPending(i, n, true));
    UnwoundIs(inv, i, n, edits, reverse, at);
    PlanRuns(b, i, loaded, n, at);
    RunCons(b, LoadPending(i, n, true), Edits(i, n, |edits|) + [PostReversal(i, n, true, at)]);
  }

  /** An intact plan carried out, and its reversal posted. */
  lemma PlanRuns(b: Books, i: nat, loaded: Invoice, n: nat, at: int)
    requires i < |b.invoices| && b.lost == [] && n < |loaded.notes| && loaded.notes[n].unwind.Editing?
    requires PlanOk(loaded.events, loaded.notes[n].unwind.edits)
    requires Applies(AllEdited(loaded, n), PostReversal(i, n, true, at))
    ensures var c := Run(With(b, i, loaded),
                         Edits(i, n, |loaded.notes[n].unwind.edits|) + [PostReversal(i, n, true, at)]);
            c.invoices == b.invoices[i := PostingReversal(AllEdited(loaded, n), i, n, true, at).0] && c.lost == []
  {
    var edits, post := Edits(i, n, |loaded.notes[n].unwind.edits|), PostReversal(i, n, true, at);
    EditsRun(b, i, loaded, n);
    RunConcat(With(b, i, loaded), edits, [post]);
    RunCons(With(b, i, AllEdited(loaded, n)), post, []);
    assert [post] + [] == [post];
    ReversalPosts(b, i, AllEdited(loaded, n), n, at);
  }

  lemma ReversalPosts(b: Books, i: nat, inv: Invoice, n: nat, at: int)
    requires i < |b.invoices| && b.lost == [] && Applies(inv, PostReversal(i, n, true, at))
    ensures var c := Next(With(b, i, inv), PostReversal(i, n, true, at));
            c.invoices == b.invoices[i := PostingReversal(inv, i, n, true, at).0] && c.lost == []
  {
    AllPosted(b.rows, b.lost, PostingReversal(inv, i, n, true, at).1);
    assert b.invoices[i := inv][i := PostingReversal(inv, i, n, true, at).0]
        == b.invoices[i := PostingReversal(inv, i, n, true, at).0];
  }

  /** Uninterrupted, an unwind leaves the tie-out where it was: the schedule gives up what Deferred gives up. */
  lemma UnwindKeepsTie(b: Books, i: nat, n: nat, at: int)
    requires Inv(b) && b.lost == [] && i < |b.invoices| && n < |b.invoices[i].notes|
    requires b.invoices[i].notes[n].unwind == Loading
    ensures var inv := b.invoices[i];
            var reverse := Reversible(inv.active, inv.events, inv.notes[n].amount - inv.notes[n].tax);
            UnexplainedDelta(Run(b, UnwindSteps(inv, i, n, reverse, at))) == UnexplainedDelta(b)
  {
    var inv := b.invoices[i];
    var reverse := Reversible(inv.active, inv.events, inv.notes[n].amount - inv.notes[n].tax);
    var r := AfterUnwind(inv, n, reverse);
    UnwindRuns(b, i, n, at);
    assert WellFormed(inv) && NoteOk(inv.notes[n]);
    UnwindTerms(inv, n, reverse);
    SameTerms(b.invoices, i, r);
    SameDelta(b, Run(b, UnwindSteps(inv, i, n, reverse, at)));
  }

  lemma UnwindTerms(inv: Invoice, n: nat, reverse: nat)
    requires WellFormed(inv) && n < |inv.notes| && inv.notes[n].unwind == Loading && NoteOk(inv.notes[n])
    requires reverse == Reversible(inv.active, inv.events, inv.notes[n].amount - inv.notes[n].tax)
    ensures forall t: Term :: t != Scheduled ==> TermOf(AfterUnwind(inv, n, reverse), t) == TermOf(inv, t)
  {
    var r := AfterUnwind(inv, n, reverse);
    UnwindTailConserves(inv.events, reverse, Processing);
    UnwindTailConserves(inv.events, reverse, Failed);
    TotalUpdate(inv.notes, n, r.notes[n], OfDrift);
    assert inv.status == Paid;
    if !inv.subscription {
      HeldAllRecognized(inv.events, Pending);
    }
  }

  // ---- What the statements move ----

  lemma {:induction false} SumSharesUpdate(invs: seq<Invoice>, i: nat, inv: Invoice, a: Account)
    requires i < |invs|
    ensures SumShares(invs[i := inv], a) == SumShares(invs, a) - Share(invs[i], a) + Share(inv, a)
  {
    var n := |invs| - 1;
    if i == n {
      assert invs[i := inv][..n] == invs[..n];
    } else {
      assert invs[i := inv][..n] == invs[..n][i := inv];
      SumSharesUpdate(invs[..n], i, inv, a);
    }
  }

  /** When nothing is lost, an account moves as the share of the invoice that changed. */
  lemma AccountMoves(b: Books, c: Books, i: nat, r: Invoice, a: Account)
    requires Inv(b) && Inv(c) && b.lost == [] && c.lost == [] && i < |b.invoices| && c.invoices == b.invoices[i := r]
    ensures Balance(c.rows, a) == Balance(b.rows, a) + Share(r, a) - Share(b.invoices[i], a)
  {
    AccountExplained(b, a);
    AccountExplained(c, a);
    SumSharesUpdate(b.invoices, i, r, a);
  }

  /** A gateway refund lowers cash by the whole, Tax Payable by its slice, and raises the Refunds expense by the
      net; it touches no other account. */
  lemma RefundStepMoves(b: Books, s: Step, a: Account)
    requires Inv(b) && b.lost == [] && s.Refund? && s.cashPosted && s.taxPosted && Takes(b, s)
    ensures var inv := b.invoices[s.i];
            Balance(Next(b, s).rows, a) == Balance(b.rows, a)
              + RefundMove(a, s.amount, RefundTaxSlice(s.amount, ActiveRefunds(inv), inv.tax, inv.total))
  {
    var inv := b.invoices[s.i];
    var (r, legs) := Refunding(inv, s.i, s);
    assert WellFormed(inv);
    StepInv(b, s);
    AllPosted(b.rows, b.lost, legs);
    AccountMoves(b, Next(b, s), s.i, r, a);
    var tax := RefundTax(inv, s.amount);
    RefundShare(inv, r.notes[|inv.notes|], a);
  }

  /** Its unwind then moves what was pending of the net, and nothing else, from Deferred to the expense. */
  lemma UnwindMoves(b: Books, i: nat, n: nat, at: int, a: Account)
    requires Inv(b) && b.lost == [] && i < |b.invoices| && n < |b.invoices[i].notes|
    requires b.invoices[i].notes[n].unwind == Loading
    ensures var inv := b.invoices[i];
            var reverse := Reversible(inv.active, inv.events, inv.notes[n].amount - inv.notes[n].tax);
            Balance(Run(b, UnwindSteps(inv, i, n, reverse, at)).rows, a)
            == Balance(b.rows, a) - (if a in {DeferredRevenue, Refunds} then reverse else 0)
  {
    var inv := b.invoices[i];
    var reverse := Reversible(inv.active, inv.events, inv.notes[n].amount - inv.notes[n].tax);
    UnwindRuns(b, i, n, at);
    AccountMoves(b, Run(b, UnwindSteps(inv, i, n, reverse, at)), i, AfterUnwind(inv, n, reverse), a);
    assert WellFormed(inv) && NoteOk(inv.notes[n]);
    UnwindShare(inv, n, reverse, a);
  }

  lemma UnwindShare(inv: Invoice, n: nat, reverse: nat, a: Account)
    requires WellFormed(inv) && n < |inv.notes| && inv.notes[n].unwind == Loading && NoteOk(inv.notes[n])
    requires reverse == Reversible(inv.active, inv.events, inv.notes[n].amount - inv.notes[n].tax)
    ensures Share(AfterUnwind(inv, n, reverse), a)
         == Share(inv, a) - (if a in {DeferredRevenue, Refunds} then reverse else 0)
  {
    var r := AfterUnwind(inv, n, reverse);
    NoteTotals(inv.notes, n, r.notes[n]);
    UnwindTailConserves(inv.events, reverse, Recognized);
    if !inv.subscription {
      HeldAllRecognized(inv.events, Pending);
    }
  }

  // ---- Deferred and the expense never go negative ----

  lemma ShareNonNegative(inv: Invoice, a: Account)
    requires WellFormed(inv) && Clean(inv) && a in {DeferredRevenue, Refunds}
    ensures Share(inv, a) >= 0
  {
    if a == Refunds {
      NetNonNegative(inv.notes);
    } else if inv.subscription {
      DriftIs(inv.notes);
      CleanDrift(inv);
      if inv.events == [] {
        TotalOfNothing(inv.notes);
      }
    }
  }

  lemma {:induction false} NetNonNegative(ns: seq<Note>)
    requires forall n :: 0 <= n < |ns| ==> NoteOk(ns[n])
    ensures Total(ns, OfAmount) - Total(ns, OfTax) - Total(ns, OfReversal) >= 0
  {
    if ns != [] {
      NetNonNegative(ns[..|ns| - 1]);
      assert NoteOk(ns[|ns| - 1]);
    }
  }

  lemma CleanDrift(inv: Invoice)
    requires CleanNotes(inv)
    ensures Total(inv.notes, OfDrift) >= 0
  {
    TotalNonNegative(inv.notes, OfDrift);
  }

  lemma {:induction false} SharesNonNegative(invs: seq<Invoice>, a: Account)
    requires a in {DeferredRevenue, Refunds}
    requires forall i :: 0 <= i < |invs| ==> WellFormed(invs[i]) && Clean(invs[i])
    ensures SumShares(invs, a) >= 0
  {
    if invs != [] {
      SharesNonNegative(invs[..|invs| - 1], a);
      ShareNonNegative(invs[|invs| - 1], a);
    }
  }

  /** Over every orderly run, late refund failures included, Deferred and the Refunds expense never go negative. */
  lemma RefundAccountsNeverNegative(steps: seq<Step>, a: Account)
    requires OrderlyRun(EMPTY_BOOKS, steps) && a in {DeferredRevenue, Refunds}
    ensures Balance(Run(EMPTY_BOOKS, steps).rows, a) >= 0
  {
    EmptyInv();
    OrderlyRunStays(EMPTY_BOOKS, steps);
    AccountExplained(Run(EMPTY_BOOKS, steps), a);
    SharesNonNegative(Run(EMPTY_BOOKS, steps).invoices, a);
  }

  // ---- What stays in the expense ----

  /** What a step decides will stay in the expense: a loaded unwind, all of the net that it did not find pending;
      one that could not load, or was abandoned, everything. */
  function KeptOf(inv: Invoice, s: Step): int
    requires Applies(inv, s)
  {
    match s
    case LoadPending(_, n, ok) =>
      var net := inv.notes[n].amount - inv.notes[n].tax;
      if ok then net - Reversible(inv.active, inv.events, net) else net
    case EditNext(_, n, ok) => if ok then 0 else inv.notes[n].unwind.reverse
    case _ => 0
  }

  function KeptBy(b: Books, s: Step): int {
    if Takes(b, s) then KeptOf(b.invoices[s.i], s) else 0
  }

  function KeptOver(b: Books, steps: seq<Step>): int
    decreases |steps|
  {
    if steps == [] then 0 else KeptBy(b, steps[0]) + KeptOver(Next(b, steps[0]), steps[1..])
  }

  function Kept(invs: seq<Invoice>): int {
    if invs == [] then 0 else Kept(invs[..|invs| - 1]) + Total(invs[|invs| - 1].notes, OfKept)
  }

  lemma {:induction false} KeptUpdate(invs: seq<Invoice>, i: nat, r: Invoice)
    requires i < |invs|
    ensures Kept(invs[i := r]) == Kept(invs) - Total(invs[i].notes, OfKept) + Total(r.notes, OfKept)
  {
    var n := |invs| - 1;
    if i == n {
      assert invs[i := r][..n] == invs[..n];
    } else {
      assert invs[i := r][..n] == invs[..n][i := r];
      KeptUpdate(invs[..n], i, r);
    }
  }

  lemma KeptSnoc(invs: seq<Invoice>, r: Invoice)
    ensures Kept(invs + [r]) == Kept(invs) + Total(r.notes, OfKept)
  {
  }

  lemma KeptOfNote(inv: Invoice, i: nat, s: Step)
    requires Applies(inv, s) && (s.LoadPending? || s.EditNext? || s.PostReversal? || s.Settle? || s.Bounce?)
    ensures var note := Evolve(inv, i, s).0.notes[s.n];
            && Evolve(inv, i, s).0.notes == inv.notes[s.n := note]
            && Weight(note, OfKept) == Weight(inv.notes[s.n], OfKept) + KeptOf(inv, s)
  {
  }

  lemma KeptOfOther(inv: Invoice, i: nat, s: Step)
    requires Applies(inv, s)
    requires !s.Refund? && !s.LoadPending? && !s.EditNext? && !s.PostReversal? && !s.Settle? && !s.Bounce?
    ensures Evolve(inv, i, s).0.notes == inv.notes && KeptOf(inv, s) == 0
  {
  }

  lemma KeptEvolve(inv: Invoice, i: nat, s: Step)
    requires Applies(inv, s)
    ensures Total(Evolve(inv, i, s).0.notes, OfKept) == Total(inv.notes, OfKept) + KeptOf(inv, s)
  {
    if s.Refund? {
      TotalSnoc(inv.notes, Refunding(inv, i, s).0.notes[|inv.notes|], OfKept);
    } else if s.LoadPending? || s.EditNext? || s.PostReversal? || s.Settle? || s.Bounce? {
      KeptOfNote(inv, i, s);
      TotalUpdate(inv.notes, s.n, Evolve(inv, i, s).0.notes[s.n], OfKept);
    } else {
      KeptOfOther(inv, i, s);
    }
  }

  lemma KeptNext(b: Books, s: Step)
    ensures Kept(Next(b, s).invoices) == Kept(b.invoices) + KeptBy(b, s)
  {
    if s.Issue? {
      KeptSnoc(b.invoices, NewInvoice(s.subscription, s.total, s.tax));
    } else if Takes(b, s) {
      KeptEvolve(b.invoices[s.i], s.i, s);
      KeptUpdate(b.invoices, s.i, Evolve(b.invoices[s.i], s.i, s).0);
    }
  }

  lemma {:induction false} KeptRun(b: Books, steps: seq<Step>)
    ensures Kept(Run(b, steps).invoices) == Kept(b.invoices) + KeptOver(b, steps)
    decreases |steps|
  {
    if steps != [] {
      KeptNext(b, steps[0]);
      KeptRun(Next(b, steps[0]), steps[1..]);
    }
  }

  predicate UnwindsOver(inv: Invoice) {
    forall n :: 0 <= n < |inv.notes| ==> inv.notes[n].unwind.Unwound? || inv.notes[n].unwind.Dropped?
  }

  lemma {:induction false} KeptIsExpense(ns: seq<Note>)
    requires forall n :: 0 <= n < |ns| ==> ns[n].unwind.Unwound? || ns[n].unwind.Dropped?
    ensures Total(ns, OfKept) == Total(ns, OfAmount) - Total(ns, OfTax) - Total(ns, OfReversal)
  {
    if ns != [] {
      KeptIsExpense(ns[..|ns| - 1]);
    }
  }

  lemma {:induction false} KeptIsShares(invs: seq<Invoice>)
    requires forall i :: 0 <= i < |invs| ==> UnwindsOver(invs[i])
    ensures Kept(invs) == SumShares(invs, Refunds)
  {
    if invs != [] {
      KeptIsShares(invs[..|invs| - 1]);
      assert UnwindsOver(invs[|invs| - 1]);
      KeptIsExpense(invs[|invs| - 1].notes);
    }
  }

  /** Over every run, whatever raced and whatever failed: once all unwinds are over, the Refunds expense (with its
      lost legs) is the sum, over the unwinds of the run, of the net that each could no longer take out of Deferred. */
  lemma ExpenseOverRun(steps: seq<Step>)
    requires forall i :: 0 <= i < |Run(EMPTY_BOOKS, steps).invoices| ==>
        UnwindsOver(Run(EMPTY_BOOKS, steps).invoices[i])
    ensures var b := Run(EMPTY_BOOKS, steps);
            Balance(b.rows, Refunds) + Balance(b.lost, Refunds) == KeptOver(EMPTY_BOOKS, steps)
  {
    EveryAccountExplained(steps, Refunds);
    KeptRun(EMPTY_BOOKS, steps);
    KeptIsShares(Run(EMPTY_BOOKS, steps).invoices);
  }
}

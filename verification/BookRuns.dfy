/**
  Small runs of the books, step by step, and the invoice the examples are about.
 */
module BookRuns {
  import opened Ledger
  import opened RevenueSchedule
  import opened DeferredBooks
  import opened DeferredBooksInvariant
  import opened ClosePack

  // ---- Runs of a few steps ----

  lemma RunCons(b: Books, s: Step, rest: seq<Step>)
    ensures Run(b, [s] + rest) == Run(Next(b, s), rest)
    ensures OrderlyRun(b, [s] + rest) <==> OrderlyStep(b, s) && OrderlyRun(Next(b, s), rest)
  {
    assert ([s] + rest)[1..] == rest;
  }

  lemma {:induction false} RunConcat(b: Books, xs: seq<Step>, ys: seq<Step>)
    ensures Run(b, xs + ys) == Run(Run(b, xs), ys)
    ensures OrderlyRun(b, xs + ys) <==> OrderlyRun(b, xs) && OrderlyRun(Run(b, xs), ys)
    decreases |xs|
  {
    if xs == [] {
      assert xs + ys == ys;
    } else {
      assert (xs + ys)[1..] == xs[1..] + ys;
      RunConcat(Next(b, xs[0]), xs[1..], ys);
    }
  }

  lemma RunFour(b: Books, s1: Step, s2: Step, s3: Step, s4: Step)
    ensures Run(b, [s1, s2, s3, s4]) == Next(Next(Next(Next(b, s1), s2), s3), s4)
    ensures OrderlyRun(b, [s1, s2, s3, s4]) <==>
              && OrderlyStep(b, s1) && OrderlyStep(Next(b, s1), s2) && OrderlyStep(Next(Next(b, s1), s2), s3)
              && OrderlyStep(Next(Next(Next(b, s1), s2), s3), s4)
  {
    var b1 := Next(b, s1);
    var b2 := Next(b1, s2);
    var b3 := Next(b2, s3);
    RunCons(b, s1, [s2, s3, s4]);
    RunCons(b1, s2, [s3, s4]);
    RunCons(b2, s3, [s4]);
    RunCons(b3, s4, []);
    assert [s1] + [s2, s3, s4] == [s1, s2, s3, s4] && [s2] + [s3, s4] == [s2, s3, s4];
    assert [s3] + [s4] == [s3, s4] && [s4] + [] == [s4];
  }

  lemma RunThree(b: Books, x: Step, y: Step, z: Step) returns (steps: seq<Step>)
    ensures Run(b, steps) == Next(Next(Next(b, x), y), z)
  {
    steps := [x] + ([y] + ([z] + []));
    RunCons(Next(Next(b, x), y), z, []);
    RunCons(Next(b, x), y, [z] + []);
    RunCons(b, x, [y] + ([z] + []));
  }

  /** The books with another invoice in place of the i-th. */
  function With(b: Books, i: nat, r: Invoice): Books
    requires i < |b.invoices|
  {
    Books(b.invoices[i := r], b.rows, b.lost)
  }

  /** A step that posts nothing. */
  lemma NextWith(b: Books, i: nat, r: Invoice, s: Step)
    requires i < |b.invoices| && !s.Issue? && s.i == i && Applies(r, s) && Evolve(r, i, s).1 == []
    ensures Next(With(b, i, r), s) == With(b, i, Evolve(r, i, s).0)
  {
    assert b.invoices[i := r][i := Evolve(r, i, s).0] == b.invoices[i := Evolve(r, i, s).0];
  }

  /** A step of the only invoice, its posts succeeding. */
  lemma NextOnly(b: Books, inv: Invoice, s: Step)
    requires b.invoices == [inv] && !s.Issue? && s.i == 0 && Applies(inv, s)
    requires forall m :: 0 <= m < |Evolve(inv, 0, s).1| ==> Evolve(inv, 0, s).1[m].ok
    ensures Next(b, s).invoices == [Evolve(inv, 0, s).0] && Next(b, s).lost == b.lost
  {
    AllPosted(b.rows, b.lost, Evolve(inv, 0, s).1);
  }

  lemma EmptyInv()
    ensures Inv(EMPTY_BOOKS) && Orderly(EMPTY_BOOKS)
  {
  }

  lemma OneInvoice(b: Books, a: Account)
    requires Inv(b) && |b.invoices| == 1 && b.lost == []
    ensures Balance(b.rows, a) == Share(b.invoices[0], a)
  {
    AccountExplained(b, a);
    assert b.invoices[..0] == [];
  }

  // ---- One subscription invoice ----

  // A subscription invoice without tax, scheduled over one month, with its one event in the given status.
  function Sample(total: nat, st: EventStatus): Invoice {
    NewInvoice(true, total, 0).(active := true, events := [Event(total, st)])
  }

  lemma SampleHeld(total: nat, st: EventStatus)
    ensures forall other :: Held(Sample(total, st).events, other) == if other == st then total else 0
  {
  }

  lemma SampleIssued(total: nat, s: Step)
    requires s == Issue(true, total, 0, true, 0)
    ensures Next(EMPTY_BOOKS, s).invoices == [NewInvoice(true, total, 0)] && Next(EMPTY_BOOKS, s).lost == []
  {
    AllPosted([], [], IssueLegs(0, true, total, 0, true, 0));
  }

  lemma SampleSchedules(total: nat, s: Step)
    requires total > 0 && s == Schedule(0, 1, true)
    ensures Evolve(NewInvoice(true, total, 0), 0, s) == (Sample(total, Pending), [])
  {
    assert Allocation(total, 1) == [Event(total, Pending)];
  }

  /** Issued, scheduled over one month and claimed. */
  lemma SampleClaimed(total: nat) returns (steps: seq<Step>)
    requires total > 0
    ensures Run(EMPTY_BOOKS, steps).invoices == [Sample(total, Processing)] && Run(EMPTY_BOOKS, steps).lost == []
    ensures OrderlyRun(EMPTY_BOOKS, steps)
  {
    steps := [Issue(true, total, 0, true, 0), Schedule(0, 1, true), Claim(0, 0)];
    var b1 := Next(EMPTY_BOOKS, steps[0]);
    var b2 := Next(b1, steps[1]);
    SampleIssued(total, steps[0]);
    SampleSchedules(total, steps[1]);
    NextOnly(b1, NewInvoice(true, total, 0), steps[1]);
    assert SetStatus(Sample(total, Pending).events, 0, Processing) == Sample(total, Processing).events;
    NextOnly(b2, Sample(total, Pending), steps[2]);
    RunCons(b2, steps[2], []);
    RunCons(b1, steps[1], [steps[2]]);
    RunCons(EMPTY_BOOKS, steps[0], [steps[1], steps[2]]);
    assert steps == [steps[0]] + [steps[1], steps[2]] && [steps[1], steps[2]] == [steps[1]] + [steps[2]];
    assert [steps[2]] + [] == [steps[2]];
  }

  /** Recognizing the one event of the one invoice. */
  lemma SampleFinishes(b: Books, inv: Invoice, total: nat, s: Step)
    requires b.invoices == [inv] && inv.events == [Event(total, Processing)] && s == Finish(0, 0, true, 1)
    ensures Next(b, s).invoices == [inv.(events := [Event(total, Recognized)])] && Next(b, s).lost == b.lost
    ensures OrderlyStep(b, s)
  {
    assert SetStatus(inv.events, 0, Recognized) == [Event(total, Recognized)];
    AllPosted(b.rows, b.lost, Evolve(inv, 0, s).1);
  }
}

/**
  Tax Payable under refunds (internal/service/credit_note.go:41-51, 477-489,
  557-611): when it is brought to zero, and when it is driven negative.
 */
module TaxBooks {
  import opened Ledger
  import opened TaxAllocation
  import opened DeferredBooks
  import opened DeferredBooksInvariant
  import opened BookRuns
  import opened ClosePack

  // ---- Tax reversed by refunds that failed later ----

  /** The tax legs that no active refund accounts for. */
  function BouncedTax(inv: Invoice): int {
    Total(inv.notes, OfTax) - Portion(inv, ActiveRefunds(inv))
  }

  /** No accepted refund failed later. */
  predicate NoBounce(steps: seq<Step>) {
    forall j :: 0 <= j < |steps| ==> !steps[j].Bounce?
  }

  ghost predicate TaxTelescopes(b: Books) {
    forall i :: 0 <= i < |b.invoices| ==> BouncedTax(b.invoices[i]) == 0
  }

  lemma NoteKeepsTax(inv: Invoice, n: nat, note: Note)
    requires n < |inv.notes| && note.tax == inv.notes[n].tax
    requires Weight(note, OfActive) == Weight(inv.notes[n], OfActive)
    ensures BouncedTax(inv.(notes := inv.notes[n := note])) == BouncedTax(inv)
    ensures Total(inv.notes[n := note], OfTax) == Total(inv.notes, OfTax)
  {
    TotalUpdate(inv.notes, n, note, OfTax);
    TotalUpdate(inv.notes, n, note, OfActive);
  }

  /** A refund adds its slice, and the portion of the active refunds grows by as much. */
  lemma RefundTelescopes(inv: Invoice, i: nat, s: Step)
    requires WellFormed(inv) && s.Refund? && Applies(inv, s)
    ensures var r := Refunding(inv, i, s).0;
            && BouncedTax(r) == BouncedTax(inv)
            && Total(r.notes, OfTax) == BouncedTax(inv) + Portion(inv, ActiveRefunds(inv) + s.amount)
  {
    var r := Refunding(inv, i, s).0;
    var tax := RefundTax(inv, s.amount);
    TotalSnoc(inv.notes, r.notes[|inv.notes|], OfTax);
    TotalSnoc(inv.notes, r.notes[|inv.notes|], OfActive);
  }

  /** Only a refund changes the tax that was reversed, and only a bounce the tax that bounced. */
  lemma TaxEvolves(inv: Invoice, i: nat, s: Step)
    requires WellFormed(inv) && Applies(inv, s)
    ensures !s.Bounce? ==> BouncedTax(Evolve(inv, i, s).0) == BouncedTax(inv)
    ensures !s.Refund? ==> Total(Evolve(inv, i, s).0.notes, OfTax) == Total(inv.notes, OfTax)
  {
    var r := Evolve(inv, i, s).0;
    if s.Refund? {
      RefundTelescopes(inv, i, s);
    } else if s.Bounce? {
      TotalUpdate(inv.notes, s.n, r.notes[s.n], OfTax);
    } else if s.LoadPending? || s.EditNext? || s.PostReversal? || s.Settle? {
      NoteTaxEvolves(inv, i, s);
    } else {
      assert r.notes == inv.notes && r.total == inv.total && r.tax == inv.tax;
    }
  }

  lemma NoteTaxEvolves(inv: Invoice, i: nat, s: Step)
    requires Applies(inv, s) && (s.LoadPending? || s.EditNext? || s.PostReversal? || s.Settle?)
    ensures BouncedTax(Evolve(inv, i, s).0) == BouncedTax(inv)
    ensures Total(Evolve(inv, i, s).0.notes, OfTax) == Total(inv.notes, OfTax)
  {
    var r := Evolve(inv, i, s).0;
    assert r.notes == inv.notes[s.n := r.notes[s.n]] && r.total == inv.total && r.tax == inv.tax;
    NoteKeepsTax(inv, s.n, r.notes[s.n]);
    assert BouncedTax(r) == BouncedTax(inv.(notes := r.notes));
  }

  lemma {:induction false} NoBounceTelescopes(b: Books, steps: seq<Step>)
    requires Inv(b) && TaxTelescopes(b) && NoBounce(steps)
    ensures TaxTelescopes(Run(b, steps))
    decreases |steps|
  {
    if steps != [] {
      StepInv(b, steps[0]);
      TelescopesNext(b, steps[0]);
      NoBounceTelescopes(Next(b, steps[0]), steps[1..]);
    }
  }

  lemma TelescopesNext(b: Books, s: Step)
    requires Inv(b) && TaxTelescopes(b) && !s.Bounce?
    ensures TaxTelescopes(Next(b, s))
  {
    forall i | 0 <= i < |Next(b, s).invoices| ensures BouncedTax(Next(b, s).invoices[i]) == 0 {
      if i < |b.invoices| {
        NextInvoice(b, s, i);
        assert WellFormed(b.invoices[i]);
        if Takes(b, s) && s.i == i {
          TaxEvolves(b.invoices[i], i, s);
        }
      } else {
        assert Next(b, s).invoices[i].notes == [];
      }
    }
  }

  // ---- Fully refunded ----

  predicate FullyRefunded(inv: Invoice) {
    inv.total > 0 && ActiveRefunds(inv) == inv.total
  }

  lemma FullRefundShare(inv: Invoice)
    requires WellFormed(inv) && BouncedTax(inv) == 0 && FullyRefunded(inv)
    ensures Share(inv, TaxPayable) == 0
  {
    PortionOfWholeInvoice(inv.total, inv.tax, inv.total);
  }

  lemma {:induction false} NoShares(invs: seq<Invoice>, a: Account)
    requires forall i :: 0 <= i < |invs| ==> Share(invs[i], a) == 0
    ensures SumShares(invs, a) == 0
  {
    if invs != [] {
      NoShares(invs[..|invs| - 1], a);
    }
  }

  /** Refunding a paid invoice in full, in any number of parts, leaves none of its tax in Tax Payable: the rows
      posted for it (with those that were lost) cancel; and when every invoice is refunded in full, the account is
      empty. */
  lemma FullyRefundedOwesNoTax(steps: seq<Step>)
    requires NoBounce(steps)
    ensures var b := Run(EMPTY_BOOKS, steps);
            forall i :: 0 <= i < |b.invoices| && FullyRefunded(b.invoices[i]) ==>
              BalanceOf(b.rows, i, TaxPayable) + BalanceOf(b.lost, i, TaxPayable) == 0
    ensures var b := Run(EMPTY_BOOKS, steps);
            (forall i :: 0 <= i < |b.invoices| ==> FullyRefunded(b.invoices[i])) ==>
              Balance(b.rows, TaxPayable) + Balance(b.lost, TaxPayable) == 0
    ensures OrderlyRun(EMPTY_BOOKS, steps) ==> Run(EMPTY_BOOKS, steps).lost == []
  {
    var b := Run(EMPTY_BOOKS, steps);
    EmptyInv();
    RunInv(EMPTY_BOOKS, steps);
    NoBounceTelescopes(EMPTY_BOOKS, steps);
    forall i | 0 <= i < |b.invoices| && FullyRefunded(b.invoices[i])
      ensures BalanceOf(b.rows, i, TaxPayable) + BalanceOf(b.lost, i, TaxPayable) == 0
      ensures Share(b.invoices[i], TaxPayable) == 0 {
      assert WellFormed(b.invoices[i]) && Explained(b, i);
      FullRefundShare(b.invoices[i]);
    }
    if forall i :: 0 <= i < |b.invoices| ==> FullyRefunded(b.invoices[i]) {
      NoShares(b.invoices, TaxPayable);
      EveryAccountExplained(steps, TaxPayable);
    }
    if OrderlyRun(EMPTY_BOOKS, steps) {
      OrderlyRunStays(EMPTY_BOOKS, steps);
    }
  }

  // ---- Never negative ----

  function TaxOf(b: Books, i: nat): int {
    if i < |b.invoices| then Share(b.invoices[i], TaxPayable) else 0
  }

  /** What a caller could check before a refund: the tax already reversed by refunds that failed later, plus the
      portion of all refunds including this one, is within the invoice's tax. */
  predicate TaxFits(inv: Invoice, amount: nat) {
    BouncedTax(inv) + Portion(inv, ActiveRefunds(inv) + amount) <= inv.tax
  }

  /** A refund keeps the invoice's part of Tax Payable from going negative exactly when it fits. */
  lemma RefundFitsIff(inv: Invoice, i: nat, s: Step)
    requires WellFormed(inv) && s.Refund? && Applies(inv, s)
    ensures Share(Refunding(inv, i, s).0, TaxPayable) >= 0 <==> TaxFits(inv, s.amount)
  {
    RefundTelescopes(inv, i, s);
  }

  predicate TaxHolds(b: Books, i: nat, steps: seq<Step>)
    decreases |steps|
  {
    TaxOf(b, i) >= 0 && (steps == [] || TaxHolds(Next(b, steps[0]), i, steps[1..]))
  }

  predicate RefundsFit(b: Books, i: nat, steps: seq<Step>)
    decreases |steps|
  {
    steps == [] ||
    (&& (Takes(b, steps[0]) && steps[0].i == i && steps[0].Refund? ==> TaxFits(b.invoices[i], steps[0].amount))
     && RefundsFit(Next(b, steps[0]), i, steps[1..]))
  }

  /** Throughout a run an invoice's part of Tax Payable stays non-negative if and only if every refund of it fits. */
  lemma {:induction false} TaxHoldsIff(b: Books, i: nat, steps: seq<Step>)
    requires Inv(b) && TaxOf(b, i) >= 0
    ensures TaxHolds(b, i, steps) <==> RefundsFit(b, i, steps)
    decreases |steps|
  {
    if steps != [] {
      var s := steps[0];
      StepInv(b, s);
      TaxNext(b, i, s);
      if TaxOf(Next(b, s), i) >= 0 {
        TaxHoldsIff(Next(b, s), i, steps[1..]);
      }
    }
  }

  lemma TaxNext(b: Books, i: nat, s: Step)
    requires Inv(b) && TaxOf(b, i) >= 0
    ensures TaxOf(Next(b, s), i) >= 0 <==> (Takes(b, s) && s.i == i && s.Refund? ==> TaxFits(b.invoices[i], s.amount))
  {
    if i < |b.invoices| {
      NextInvoice(b, s, i);
      assert WellFormed(b.invoices[i]);
      if Takes(b, s) && s.i == i {
        if s.Refund? {
          RefundFitsIff(b.invoices[i], i, s);
        } else {
          TaxShareEvolves(b.invoices[i], i, s);
        }
      }
    } else if i < |Next(b, s).invoices| {
      assert Next(b, s).invoices[i].notes == [];
    }
  }

  lemma TaxShareEvolves(inv: Invoice, i: nat, s: Step)
    requires WellFormed(inv) && Applies(inv, s) && !s.Refund?
    ensures var r := Evolve(inv, i, s).0;
            Share(r, TaxPayable) == Share(inv, TaxPayable) || Share(r, TaxPayable) == 0
  {
    TaxEvolves(inv, i, s);
  }

  /** Without late failures every refund fits, so over every run Tax Payable (with its lost legs) never goes
      negative. */
  lemma TaxNeverNegative(steps: seq<Step>)
    requires NoBounce(steps)
    ensures var b := Run(EMPTY_BOOKS, steps); Balance(b.rows, TaxPayable) + Balance(b.lost, TaxPayable) >= 0
  {
    var b := Run(EMPTY_BOOKS, steps);
    EmptyInv();
    RunInv(EMPTY_BOOKS, steps);
    NoBounceTelescopes(EMPTY_BOOKS, steps);
    EveryAccountExplained(steps, TaxPayable);
    TaxSharesNonNegative(b.invoices);
  }

  lemma {:induction false} TaxSharesNonNegative(invs: seq<Invoice>)
    requires forall i :: 0 <= i < |invs| ==> WellFormed(invs[i]) && BouncedTax(invs[i]) == 0
    ensures SumShares(invs, TaxPayable) >= 0
  {
    if invs != [] {
      TaxSharesNonNegative(invs[..|invs| - 1]);
    }
  }

  // ---- A run that drives it negative ----

  // A paid one-off invoice, with what was refunded of it in full and failed, and in full again.
  function Sold(total: nat, tax: nat, notes: seq<Note>): Invoice {
    NewInvoice(false, total, tax).(status := Paid, amountPaid := total, notes := notes)
  }

  function FullNote(total: nat, tax: nat, outcome: Outcome): Note {
    Note(total, tax, outcome, Loading, 0, 0)
  }

  lemma RefundsInFull(total: nat, tax: nat, notes: seq<Note>, s: Step)
    requires total > 0 && tax <= total && Total(notes, OfActive) == 0
        && s == Step.Refund(0, total, false, true, true, 0)
    ensures var inv := Sold(total, tax, notes);
            && Applies(inv, s)
            && Evolve(inv, 0, s).0 == Sold(total, tax, notes + [FullNote(total, tax, Unsettled)])
            && forall m :: 0 <= m < |Evolve(inv, 0, s).1| ==> Evolve(inv, 0, s).1[m].ok
  {
    PortionOfWholeInvoice(total, tax, total);
  }

  lemma SoldAndPaid(total: nat, tax: nat) returns (steps: seq<Step>)
    requires tax <= total
    ensures Run(EMPTY_BOOKS, steps).invoices == [Sold(total, tax, [])] && Run(EMPTY_BOOKS, steps).lost == []
  {
    var issue, pay := Issue(false, total, tax, true, 0), Pay(0, total, true, 0);
    steps := [issue, pay];
    var b := Next(EMPTY_BOOKS, issue);
    AllPosted([], [], IssueLegs(0, false, total, tax, true, 0));
    assert b.invoices == [NewInvoice(false, total, tax)] && b.lost == [];
    NextOnly(b, NewInvoice(false, total, tax), pay);
    RunCons(b, pay, []);
    RunCons(EMPTY_BOOKS, issue, [pay]);
    assert [pay] + [] == [pay] && [issue] + [pay] == [issue, pay];
  }

  lemma FailedRefund(total: nat, tax: nat)
    ensures Total([FullNote(total, tax, Bounced)], OfActive) == 0
    ensures WithOutcome(Sold(total, tax, [FullNote(total, tax, Unsettled)]), 0, Bounced)
         == Sold(total, tax, [FullNote(total, tax, Bounced)])
  {
    assert [FullNote(total, tax, Bounced)][..0] == [];
    assert [FullNote(total, tax, Unsettled)][0 := FullNote(total, tax, Bounced)] == [FullNote(total, tax, Bounced)];
  }

  lemma RefundFailsAndRepeats(b: Books, total: nat, tax: nat) returns (refund: Step, bounce: Step)
    requires total > 0 && tax <= total && b.invoices == [Sold(total, tax, [])] && b.lost == []
    ensures var c := Next(Next(Next(b, refund), bounce), refund);
            && c.invoices == [Sold(total, tax, [FullNote(total, tax, Bounced), FullNote(total, tax, Unsettled)])]
            && c.lost == []
  {
    refund, bounce := Step.Refund(0, total, false, true, true, 0), Bounce(0, 0);
    var accepted, failed := [FullNote(total, tax, Unsettled)], [FullNote(total, tax, Bounced)];
    assert [] + accepted == accepted;
    RefundsInFull(total, tax, [], refund);
    NextOnly(b, Sold(total, tax, []), refund);
    var b1 := Next(b, refund);
    NextOnly(b1, Sold(total, tax, accepted), bounce);
    FailedRefund(total, tax);
    var b2 := Next(b1, bounce);
    assert b2.invoices == [Sold(total, tax, failed)];
    RefundsInFull(total, tax, failed, refund);
    NextOnly(b2, Sold(total, tax, failed), refund);
    assert failed + accepted == [FullNote(total, tax, Bounced), FullNote(total, tax, Unsettled)];
  }

  /** A full refund that fails after it was accepted, and is repeated, leaves Tax Payable at minus the tax of the
      invoice, although every leg posts. */
  lemma FullRefundTwiceOverReverses(total: nat, tax: nat) returns (steps: seq<Step>)
    requires total > 0 && tax <= total
    ensures var b := Run(EMPTY_BOOKS, steps); b.lost == [] && Balance(b.rows, TaxPayable) == -(tax as int)
  {
    var paid := SoldAndPaid(total, tax);
    var b := Run(EMPTY_BOOKS, paid);
    var refund, bounce := RefundFailsAndRepeats(b, total, tax);
    var again := RunThree(b, refund, bounce, refund);
    steps := paid + again;
    RunConcat(EMPTY_BOOKS, paid, again);
    EmptyInv();
    RunInv(EMPTY_BOOKS, steps);
    OneInvoice(Run(EMPTY_BOOKS, steps), TaxPayable);
    TwiceTax(FullNote(total, tax, Bounced), FullNote(total, tax, Unsettled));
  }

  lemma TwiceTax(x: Note, y: Note)
    ensures Total([x, y], OfTax) == x.tax + y.tax
  {
    TotalSnoc([x], y, OfTax);
    TotalSnoc([], x, OfTax);
    assert [x] + [y] == [x, y] && [] + [x] == [x];
  }
}

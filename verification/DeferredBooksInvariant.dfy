/**
  Every reachable state of the books keeps the invariant: however the statements
  of recognition, write-off and refunds interleave and whichever of them fail,
  each account carries for each invoice exactly what its business state says,
  less the legs that were lost.
 */
module DeferredBooksInvariant {
  import opened Ledger
  import opened RevenueSchedule
  import opened TaxAllocation
  import opened DeferredBooks

  // ---- Legs ----

  function LegsEffect(legs: seq<Leg>, a: Account): int {
    if legs == [] then 0 else Effect(legs[0].t, a) + LegsEffect(legs[1..], a)
  }

  lemma {:induction false} EffectOfConcat(xs: seq<Leg>, ys: seq<Leg>, a: Account)
    ensures LegsEffect(xs + ys, a) == LegsEffect(xs, a) + LegsEffect(ys, a)
    decreases |xs|
  {
    if xs == [] {
      assert xs + ys == ys;
    } else {
      assert (xs + ys)[1..] == xs[1..] + ys;
      EffectOfConcat(xs[1..], ys, a);
    }
  }

  lemma EffectOfOptional(c: bool, leg: Leg, a: Account)
    ensures LegsEffect(if c then [leg] else [], a) == if c then Effect(leg.t, a) else 0
  {
  }

  lemma EffectOfTwo(l1: Leg, c2: bool, l2: Leg, a: Account)
    ensures LegsEffect([l1] + (if c2 then [l2] else []), a) == Effect(l1.t, a) + (if c2 then Effect(l2.t, a) else 0)
  {
    EffectOfConcat([l1], if c2 then [l2] else [], a);
    EffectOfOptional(true, l1, a);
    EffectOfOptional(c2, l2, a);
  }

  lemma EffectOfThree(c1: bool, l1: Leg, c2: bool, l2: Leg, c3: bool, l3: Leg, a: Account)
    ensures LegsEffect((if c1 then [l1] else []) + (if c2 then [l2] else []) + (if c3 then [l3] else []), a)
         == (if c1 then Effect(l1.t, a) else 0) + (if c2 then Effect(l2.t, a) else 0)
             + (if c3 then Effect(l3.t, a) else 0)
  {
    var xs, ys, zs := if c1 then [l1] else [], if c2 then [l2] else [], if c3 then [l3] else [];
    EffectOfConcat(xs + ys, zs, a);
    EffectOfConcat(xs, ys, a);
    EffectOfOptional(c1, l1, a);
    EffectOfOptional(c2, l2, a);
    EffectOfOptional(c3, l3, a);
  }

  // ---- One invoice: its shares ----

  /** The legs explain the change of every share. */
  ghost predicate Balanced(inv: Invoice, r: (Invoice, seq<Leg>)) {
    forall a: Account :: Share(r.0, a) == Share(inv, a) + LegsEffect(r.1, a)
  }

  /** The figures that shares are made of. */
  ghost predicate SameFigures(inv: Invoice, r: Invoice) {
    && r.subscription == inv.subscription && r.total == inv.total && r.tax == inv.tax
    && r.amountPaid == inv.amountPaid && r.writtenOff == inv.writtenOff && r.reversed == inv.reversed
    && Held(r.events, Recognized) == Held(inv.events, Recognized)
    && Total(r.notes, OfAmount) == Total(inv.notes, OfAmount)
    && Total(r.notes, OfTax) == Total(inv.notes, OfTax)
    && Total(r.notes, OfReversal) == Total(inv.notes, OfReversal)
  }

  lemma SameBalanced(inv: Invoice, r: Invoice)
    requires SameFigures(inv, r)
    ensures Balanced(inv, (r, []))
  {
  }

  lemma {:induction false} HeldAllRecognized(es: seq<Event>, st: EventStatus)
    requires forall k :: 0 <= k < |es| ==> es[k].status == Recognized
    requires st != Recognized
    ensures Held(es, st) == 0
  {
    if es != [] {
      HeldAllRecognized(es[..|es| - 1], st);
    }
  }

  lemma {:induction false} TotalOfNothing(ns: seq<Note>)
    requires NoUnwinds(ns)
    ensures Total(ns, OfTaken) == Total(ns, OfReversal) == 0
  {
    if ns != [] {
      TotalOfNothing(ns[..|ns| - 1]);
    }
  }

  /** Everything a note contributes when it changes. */
  lemma NoteTotals(ns: seq<Note>, n: nat, note: Note)
    requires n < |ns|
    ensures forall m: Measure :: Total(ns[n := note], m) == Total(ns, m) - Weight(ns[n], m) + Weight(note, m)
  {
    forall m: Measure ensures Total(ns[n := note], m) == Total(ns, m) - Weight(ns[n], m) + Weight(note, m) {
      TotalUpdate(ns, n, note, m);
    }
  }

  // ---- Schedules and payment ----

  lemma ScheduleStep(inv: Invoice, months: nat, filled: bool)
    requires WellFormed(inv) && Applies(inv, Schedule(0, months, filled))
    ensures WellFormed(WithSchedule(inv, months, filled))
    ensures inv.subscription ==>
        Held(WithSchedule(inv, months, filled).events, Recognized) == Held(inv.events, Recognized)
  {
    TotalOfNothing([]);
    if !inv.active && inv.subscription && PreTax(inv) > 0 {
      TotalOfNothing(inv.notes);
      AllocationConserves(PreTax(inv), if months < 1 then 1 else months);
    }
  }

  lemma ScheduleBalanced(inv: Invoice, months: nat, filled: bool)
    requires WellFormed(inv) && Applies(inv, Schedule(0, months, filled))
    ensures WellFormed(WithSchedule(inv, months, filled)) && Balanced(inv, (WithSchedule(inv, months, filled), []))
  {
    ScheduleStep(inv, months, filled);
  }

  lemma PayBalanced(inv: Invoice, i: nat, amount: nat, posted: bool, at: int)
    requires WellFormed(inv) && inv.status == Open && amount <= inv.total
    ensures var r := inv.(status := Paid, amountPaid := amount);
            WellFormed(r) && Balanced(inv, (r, PayLegs(i, amount, posted, at)))
  {
    var r := inv.(status := Paid, amountPaid := amount);
    forall a: Account ensures Share(r, a) == Share(inv, a) + LegsEffect(PayLegs(i, amount, posted, at), a) {
      EffectOfOptional(amount > 0, Leg(Transfer(Cash, Receivable, amount, 3, InvoiceRef(i), 0, at), posted), a);
    }
  }

  // ---- Recognition ----

  lemma MoveBalanced(inv: Invoice, k: nat, to: EventStatus)
    requires WellFormed(inv) && k < |inv.events|
    requires inv.events[k].status in {Pending, Processing} && to in {Pending, Processing, Failed}
    ensures var r := inv.(events := SetStatus(inv.events, k, to)); WellFormed(r) && Balanced(inv, (r, []))
  {
    var es := SetStatus(inv.events, k, to);
    HeldAfterSet(inv.events, k, to, Recognized);
    HeldAfterSet(inv.events, k, to, Pending);
    HeldAfterSet(inv.events, k, to, Processing);
    HeldAfterSet(inv.events, k, to, Failed);
    EventsWellFormed(inv, es);
    SameBalanced(inv, inv.(events := es));
  }

  /** Events that change status among themselves. */
  lemma EventsWellFormed(inv: Invoice, es: seq<Event>)
    requires WellFormed(inv) && inv.subscription && inv.events != [] && es != []
    requires Held(inv.events, Recognized) <= Held(es, Recognized)
    requires Held(es, Recognized) + Held(es, Pending) + Held(es, Processing) + Held(es, Failed)
          == Held(inv.events, Recognized) + Held(inv.events, Pending) + Held(inv.events, Processing)
              + Held(inv.events, Failed)
    ensures WellFormed(inv.(events := es))
  {
  }

  /** Recognizing an event moves its amount from Deferred to Recognized, and touches no other account. */
  lemma RecognizeBalanced(inv: Invoice, i: nat, k: nat, at: int)
    requires WellFormed(inv) && AtEvent(inv, k, Processing)
    ensures var (r, legs) := Evolve(inv, i, Finish(i, k, true, at)); WellFormed(r) && Balanced(inv, (r, legs))
  {
    RecognizeWellFormed(inv, k);
    var leg := Leg(Transfer(DeferredRevenue, RecognizedRevenue, inv.events[k].amount, 2, EventRef(i, k), 0, at), true);
    var es := SetStatus(inv.events, k, Recognized);
    forall a: Account ensures Share(inv.(events := es), a) == Share(inv, a) + LegsEffect([leg], a) {
      EffectOfOptional(true, leg, a);
      RecognizeShare(inv, es, leg.t, a);
    }
  }

  lemma RecognizeShare(inv: Invoice, es: seq<Event>, t: Transfer, a: Account)
    requires inv.subscription && t.debit == DeferredRevenue && t.credit == RecognizedRevenue
    requires Held(es, Recognized) == Held(inv.events, Recognized) + t.amount
    ensures Share(inv.(events := es), a) == Share(inv, a) + Effect(t, a)
  {
  }

  lemma RecognizeWellFormed(inv: Invoice, k: nat)
    requires WellFormed(inv) && AtEvent(inv, k, Processing)
    ensures inv.subscription
    ensures WellFormed(inv.(events := SetStatus(inv.events, k, Recognized)))
    ensures Held(SetStatus(inv.events, k, Recognized), Recognized)
        == Held(inv.events, Recognized) + inv.events[k].amount
  {
    HeldAfterSet(inv.events, k, Recognized, Recognized);
    HeldAfterSet(inv.events, k, Recognized, Pending);
    HeldAfterSet(inv.events, k, Recognized, Processing);
    HeldAfterSet(inv.events, k, Recognized, Failed);
    EventsWellFormed(inv, SetStatus(inv.events, k, Recognized));
  }

  // ---- Write-off ----

  lemma SeenWithin(inv: Invoice, ok: bool)
    requires WellFormed(inv)
    ensures 0 <= SeenRecognized(inv, ok) <= PreTax(inv)
    ensures inv.subscription ==> SeenRecognized(inv, ok) <= Held(inv.events, Recognized)
  {
  }

  /** How a write-off moves each account. */
  function WriteOffMove(a: Account, deferred: int, recognized: int, tax: int): int {
    match a
    case DeferredRevenue => -deferred
    case BadDebt => recognized
    case TaxPayable => -tax
    case Receivable => -(deferred + recognized + tax)
    case _ => 0
  }

  lemma WriteOffEffect(i: nat, deferred: nat, recognized: nat, tax: nat, at: int, a: Account)
    ensures LegsEffect(WriteOffLegs(i, deferred, recognized, tax, at), a) == WriteOffMove(a, deferred, recognized, tax)
  {
    var d := Leg(Transfer(DeferredRevenue, Receivable, deferred, 22, InvoiceRef(i), 0, at), true);
    var b := Leg(Transfer(BadDebt, Receivable, recognized, 26, InvoiceRef(i), 0, at), true);
    var t := Leg(Transfer(TaxPayable, Receivable, tax, 23, InvoiceRef(i), 0, at), true);
    EffectOfThree(deferred > 0, d, recognized > 0, b, tax > 0, t, a);
    MoveOfThree(d.t, b.t, t.t, a);
  }

  lemma MoveOfThree(d: Transfer, b: Transfer, t: Transfer, a: Account)
    requires d.debit == DeferredRevenue && b.debit == BadDebt && t.debit == TaxPayable
    requires d.credit == b.credit == t.credit == Receivable
    ensures (if d.amount > 0 then Effect(d, a) else 0) + (if b.amount > 0 then Effect(b, a) else 0)
            + (if t.amount > 0 then Effect(t, a) else 0) == WriteOffMove(a, d.amount, b.amount, t.amount)
  {
  }

  /** The write-off legs, posted together, move every account as the invoice's state does. */
  lemma WriteOffBalanced(inv: Invoice, i: nat, posted: bool, at: int)
    requires WellFormed(inv) && inv.writeOff.Splitting?
    ensures var (r, legs) := PostingWriteOff(inv, i, posted, at); WellFormed(r) && Balanced(inv, (r, legs))
  {
    if posted && inv.total > 0 {
      var recognized := inv.writeOff.recognized;
      var r := inv.(writtenOff := true, reversed := PreTax(inv) - recognized, writeOff := Listing);
      WriteOffWellFormed(inv, r);
      WriteOffExplained(inv, r, i, recognized, at);
    } else {
      StageBalanced(inv, inv.(writeOff := Over));
    }
  }

  lemma WriteOffWellFormed(inv: Invoice, r: Invoice)
    requires WellFormed(inv) && inv.writeOff.Splitting?
    requires r == inv.(writtenOff := true, reversed := PreTax(inv) - inv.writeOff.recognized, writeOff := Listing)
    ensures WellFormed(r) && inv.notes == [] && inv.amountPaid == 0 && !inv.writtenOff && inv.reversed == 0
    ensures 0 <= r.reversed <= PreTax(inv) && (!inv.subscription ==> r.reversed == 0)
  {
  }

  lemma WriteOffExplained(inv: Invoice, r: Invoice, i: nat, recognized: nat, at: int)
    requires inv.notes == [] && inv.amountPaid == 0 && !inv.writtenOff && inv.reversed == 0
    requires r == inv.(writtenOff := true, reversed := PreTax(inv) - recognized, writeOff := Listing)
    requires 0 <= r.reversed && (!inv.subscription ==> r.reversed == 0)
    ensures Balanced(inv, (r, WriteOffLegs(i, r.reversed, recognized, inv.tax, at)))
  {
    forall a: Account
      ensures Share(r, a) == Share(inv, a) + LegsEffect(WriteOffLegs(i, r.reversed, recognized, inv.tax, at), a) {
      WriteOffEffect(i, r.reversed, recognized, inv.tax, at, a);
      WriteOffShare(inv, r, a);
    }
  }

  /** What posting the write-off does to each share, given only the fields it sets. */
  lemma WriteOffShare(inv: Invoice, r: Invoice, a: Account)
    requires inv.notes == [] && inv.amountPaid == 0 && !inv.writtenOff && inv.reversed == 0
    requires r == inv.(writtenOff := true, reversed := r.reversed, writeOff := r.writeOff)
    requires !inv.subscription ==> r.reversed == 0
    ensures Share(r, a) == Share(inv, a) + WriteOffMove(a, r.reversed, PreTax(inv) - r.reversed, inv.tax)
  {
  }

  lemma VoidBalanced(inv: Invoice, ok: bool)
    requires WellFormed(inv) && inv.writeOff.Voiding? && inv.writeOff.edits != []
    ensures WellFormed(VoidingNext(inv, ok)) && Balanced(inv, (VoidingNext(inv, ok), []))
  {
    if ok {
      var e := inv.writeOff.edits[0];
      PerformHeld(inv.events, e, Recognized);
      PerformHeld(inv.events, e, Processing);
      PerformHeld(inv.events, e, Failed);
      if !inv.subscription {
        OneOffUntouched(inv, e);
      }
      SameBalanced(inv, VoidingNext(inv, ok));
    }
  }

  lemma OneOffUntouched(inv: Invoice, e: Edit)
    requires OneOffOk(inv)
    ensures Perform(inv.events, e) == inv.events && Taking(inv, e) == 0
  {
  }

  // ---- Refunds ----

  /** How a refund's money and tax move each account; the unwind follows. */
  function RefundMove(a: Account, amount: int, tax: int): int {
    match a
    case Cash => -amount
    case TaxPayable => -tax
    case Refunds => amount - tax
    case _ => 0
  }

  lemma RefundEffect(cash: Transfer, tax: Transfer, ok1: bool, ok2: bool, a: Account)
    requires cash.debit == Refunds && cash.credit == Cash && tax.debit == TaxPayable && tax.credit == Refunds
    ensures LegsEffect([Leg(cash, ok1)] + (if tax.amount > 0 then [Leg(tax, ok2)] else []), a)
         == RefundMove(a, cash.amount, tax.amount)
  {
    EffectOfTwo(Leg(cash, ok1), tax.amount > 0, Leg(tax, ok2), a);
  }

  /** The tax reversed by a refund is its slice, between 0 and the refund. */
  lemma RefundTax(inv: Invoice, amount: nat) returns (tax: nat)
    requires WellFormed(inv)
    ensures tax == RefundTaxSlice(amount, ActiveRefunds(inv), inv.tax, inv.total) <= amount
    ensures Portion(inv, ActiveRefunds(inv) + amount) == Portion(inv, ActiveRefunds(inv)) + tax
  {
    ActiveNonNegative(inv.notes);
    SliceBounds(amount, ActiveRefunds(inv), inv.tax, inv.total);
    tax := RefundTaxSlice(amount, ActiveRefunds(inv), inv.tax, inv.total);
  }

  lemma ActiveNonNegative(ns: seq<Note>)
    ensures Total(ns, OfActive) >= 0
  {
    TotalNonNegative(ns, OfActive);
  }

  lemma RefundBalanced(inv: Invoice, i: nat, s: Step)
    requires WellFormed(inv) && s.Refund? && Applies(inv, s)
    ensures var (r, legs) := Refunding(inv, i, s); WellFormed(r) && Balanced(inv, (r, legs))
  {
    var (r, legs) := Refunding(inv, i, s);
    var tax := RefundTax(inv, s.amount);
    var note := Note(s.amount, tax, if s.settled then Settled else Unsettled, Loading, 0, 0);
    assert r.notes == inv.notes + [note];
    RefundWellFormed(inv, note);
    forall a: Account ensures Share(r, a) == Share(inv, a) + LegsEffect(legs, a) {
      RefundEffect(Transfer(Refunds, Cash, s.amount, 4, RefundRef(i, |inv.notes|), 0, s.at),
                   Transfer(TaxPayable, Refunds, tax, 9, RefundRef(i, |inv.notes|), 0, s.at), s.cashPosted,
                       s.taxPosted, a);
      RefundShare(inv, note, a);
    }
  }

  lemma RefundWellFormed(inv: Invoice, note: Note)
    requires WellFormed(inv) && inv.status == Paid && ActiveRefunds(inv) + note.amount <= inv.amountPaid
    requires note.tax <= note.amount && note.unwind == Loading && note.taken == note.missed == 0
    ensures WellFormed(inv.(notes := inv.notes + [note]))
  {
    TotalSnoc(inv.notes, note, OfActive);
    TotalSnoc(inv.notes, note, OfTaken);
  }

  lemma RefundShare(inv: Invoice, note: Note, a: Account)
    requires note.unwind == Loading && !inv.writtenOff
    ensures Share(inv.(notes := inv.notes + [note]), a) == Share(inv, a) + RefundMove(a, note.amount, note.tax)
  {
    TotalSnoc(inv.notes, note, OfAmount);
    TotalSnoc(inv.notes, note, OfTax);
    TotalSnoc(inv.notes, note, OfReversal);
  }

  /** A note that changes without touching what was taken out of the events. */
  lemma NoteWellFormed(inv: Invoice, n: nat, note: Note)
    requires WellFormed(inv) && n < |inv.notes| && NoteOk(note)
    requires note.amount == inv.notes[n].amount && note.taken == inv.notes[n].taken
    requires note.outcome == Bounced || (note.outcome == Bounced <==> inv.notes[n].outcome == Bounced)
    requires inv.events == [] || !inv.subscription ==> note.unwind.Loading? || note.unwind.Dropped?
    ensures WellFormed(inv.(notes := inv.notes[n := note]))
  {
    TotalUpdate(inv.notes, n, note, OfActive);
    TotalUpdate(inv.notes, n, note, OfTaken);
  }

  lemma NoteBalanced(inv: Invoice, n: nat, note: Note)
    requires n < |inv.notes| && note.amount == inv.notes[n].amount && note.tax == inv.notes[n].tax
    requires Weight(note, OfReversal) == Weight(inv.notes[n], OfReversal)
    ensures Balanced(inv, (inv.(notes := inv.notes[n := note]), []))
  {
    NoteTotals(inv.notes, n, note);
    SameBalanced(inv, inv.(notes := inv.notes[n := note]));
  }

  lemma LoadBalanced(inv: Invoice, n: nat, ok: bool)
    requires WellFormed(inv) && n < |inv.notes| && inv.notes[n].unwind == Loading
    ensures var r := inv.(notes := inv.notes[n := inv.notes[n].(unwind := Loaded(inv, inv.notes[n], ok))]);
            WellFormed(r) && Balanced(inv, (r, []))
  {
    var note := inv.notes[n].(unwind := Loaded(inv, inv.notes[n], ok));
    LoadedOk(inv, inv.notes[n], ok);
    NoteWellFormed(inv, n, note);
    NoteBalanced(inv, n, note);
  }

  lemma LoadedOk(inv: Invoice, note: Note, ok: bool)
    requires WellFormed(inv) && NoteOk(note) && note.unwind == Loading
    ensures NoteOk(note.(unwind := Loaded(inv, note, ok)))
    ensures inv.events == [] || !inv.subscription ==> Loaded(inv, note, ok) == Dropped
  {
    if !inv.subscription {
      HeldAllRecognized(inv.events, Pending);
    }
    var reverse := Reversible(inv.active, inv.events, note.amount - note.tax);
    if ok && reverse > 0 {
      var edits := TailEdits(inv.events, reverse);
      TailEditsPlan(inv.events, reverse);
      PlannedSnoc(edits, Close);
      assert edits + [] == edits;
    }
  }

  /** One statement of an unwind moves no account: the events give up now what Deferred gives up with the last post. */
  lemma EditBalanced(inv: Invoice, n: nat, ok: bool)
    requires WellFormed(inv) && Applies(inv, EditNext(0, n, ok))
    ensures WellFormed(EditingNext(inv, n, ok)) && Balanced(inv, (EditingNext(inv, n, ok), []))
  {
    var note := EditingNext(inv, n, ok).notes[n];
    if ok {
      var e := inv.notes[n].unwind.edits[0];
      assert !NoUnwinds(inv.notes);
      EditWellFormed(inv, n, note, e);
      EditFigures(inv, n, note, e);
    } else {
      NoteWellFormed(inv, n, note);
      NoteBalanced(inv, n, note);
    }
  }

  lemma EditFigures(inv: Invoice, n: nat, note: Note, e: Edit)
    requires n < |inv.notes| && note.amount == inv.notes[n].amount && note.tax == inv.notes[n].tax
    requires Weight(note, OfReversal) == Weight(inv.notes[n], OfReversal)
    ensures Balanced(inv, (Edited(inv, e).(notes := inv.notes[n := note]), []))
  {
    NoteTotals(inv.notes, n, note);
    PerformHeld(inv.events, e, Recognized);
    SameBalanced(inv, Edited(inv, e).(notes := inv.notes[n := note]));
  }

  lemma EditWellFormed(inv: Invoice, n: nat, note: Note, e: Edit)
    requires WellFormed(inv) && n < |inv.notes| && NoteOk(note) && !NoUnwinds(inv.notes)
    requires note.outcome == inv.notes[n].outcome && note.amount == inv.notes[n].amount
    requires note.taken == inv.notes[n].taken + Taking(inv, e)
    ensures WellFormed(Edited(inv, e).(notes := inv.notes[n := note]))
  {
    TotalUpdate(inv.notes, n, note, OfActive);
    TotalUpdate(inv.notes, n, note, OfTaken);
    PerformHeld(inv.events, e, Recognized);
    PerformHeld(inv.events, e, Processing);
    PerformHeld(inv.events, e, Failed);
  }

  lemma ReversalBalanced(inv: Invoice, i: nat, n: nat, posted: bool, at: int)
    requires WellFormed(inv) && Applies(inv, PostReversal(i, n, posted, at))
    ensures var (r, legs) := PostingReversal(inv, i, n, posted, at); WellFormed(r) && Balanced(inv, (r, legs))
  {
    var reverse := inv.notes[n].unwind.reverse;
    var note := inv.notes[n].(unwind := Unwound(reverse));
    var leg := Leg(Transfer(DeferredRevenue, Refunds, reverse, 5, RefundRef(i, n), 0, at), posted);
    assert !NoUnwinds(inv.notes);
    assert Planned([]) == 0;
    NoteWellFormed(inv, n, note);
    forall a: Account
      ensures Share(inv.(notes := inv.notes[n := note]), a)
           == Share(inv, a) + LegsEffect(if reverse > 0 then [leg] else [], a) {
      EffectOfOptional(reverse > 0, leg, a);
      ReversalShare(inv, n, note, leg.t, a);
    }
  }

  lemma ReversalShare(inv: Invoice, n: nat, note: Note, t: Transfer, a: Account)
    requires n < |inv.notes| && inv.notes[n].unwind.Editing? && inv.subscription
    requires note == inv.notes[n].(unwind := Unwound(t.amount)) && t.debit == DeferredRevenue && t.credit == Refunds
    ensures Share(inv.(notes := inv.notes[n := note]), a) == Share(inv, a) + Effect(t, a)
  {
    NoteTotals(inv.notes, n, note);
  }

  lemma OutcomeBalanced(inv: Invoice, n: nat, outcome: Outcome)
    requires WellFormed(inv) && n < |inv.notes| && inv.notes[n].outcome == Unsettled && outcome != Unsettled
    ensures WellFormed(WithOutcome(inv, n, outcome)) && Balanced(inv, (WithOutcome(inv, n, outcome), []))
  {
    var note := inv.notes[n].(outcome := outcome);
    NoteWellFormed(inv, n, note);
    NoteBalanced(inv, n, note);
  }

  lemma StageBalanced(inv: Invoice, r: Invoice)
    requires WellFormed(inv)
    requires r == inv.(writeOff := r.writeOff) || (inv.status == Open
        && r == inv.(status := Uncollectible, writeOff := Reading))
    requires WriteOffOk(r) && (r.status != Uncollectible ==> r.writeOff == NoWriteOff)
    requires r.writeOff.Splitting? ==> r.writeOff.recognized == SeenRecognized(inv, true)
                                       || r.writeOff.recognized == SeenRecognized(inv, false)
    ensures WellFormed(r) && Balanced(inv, (r, []))
  {
    SeenWithin(inv, true);
    SeenWithin(inv, false);
    SameBalanced(inv, r);
  }

  lemma EvolveBalanced(inv: Invoice, i: nat, s: Step)
    requires WellFormed(inv) && Applies(inv, s)
    ensures WellFormed(Evolve(inv, i, s).0) && Balanced(inv, Evolve(inv, i, s))
  {
    if s.Schedule? {
      ScheduleBalanced(inv, s.months, s.filled);
    } else if s.Pay? {
      PayBalanced(inv, i, s.amount, s.posted, s.at);
    } else if s.Claim? {
      MoveBalanced(inv, s.k, Processing);
    } else if s.Finish? {
      FinishBalanced(inv, i, s.k, s.posted, s.at);
    } else if s.Requeue? {
      MoveBalanced(inv, s.k, Pending);
    } else if s.MarkUncollectible? || s.ReadRecognized? || s.PostWriteOff? || s.LoadVoids? || s.VoidNext? {
      WriteOffStepBalanced(inv, i, s);
    } else {
      RefundStepBalanced(inv, i, s);
    }
  }

  lemma WriteOffStepBalanced(inv: Invoice, i: nat, s: Step)
    requires WellFormed(inv) && Applies(inv, s)
    requires s.MarkUncollectible? || s.ReadRecognized? || s.PostWriteOff? || s.LoadVoids? || s.VoidNext?
    ensures WellFormed(Evolve(inv, i, s).0) && Balanced(inv, Evolve(inv, i, s))
  {
    if s.PostWriteOff? {
      WriteOffBalanced(inv, i, s.posted, s.at);
    } else if s.VoidNext? {
      VoidBalanced(inv, s.ok);
    } else {
      SeenWithin(inv, s.ReadRecognized? && s.ok);
      StageBalanced(inv, Evolve(inv, i, s).0);
    }
  }

  lemma RefundStepBalanced(inv: Invoice, i: nat, s: Step)
    requires WellFormed(inv) && Applies(inv, s)
    requires s.Refund? || s.LoadPending? || s.EditNext? || s.PostReversal? || s.Settle? || s.Bounce?
    ensures WellFormed(Evolve(inv, i, s).0) && Balanced(inv, Evolve(inv, i, s))
  {
    if s.Refund? {
      RefundBalanced(inv, i, s);
    } else if s.LoadPending? {
      LoadBalanced(inv, s.n, s.ok);
    } else if s.EditNext? {
      EditBalanced(inv, s.n, s.ok);
    } else if s.PostReversal? {
      ReversalBalanced(inv, i, s.n, s.posted, s.at);
    } else {
      OutcomeBalanced(inv, s.n, if s.Settle? then Settled else Bounced);
    }
  }

  lemma FinishBalanced(inv: Invoice, i: nat, k: nat, posted: bool, at: int)
    requires WellFormed(inv) && AtEvent(inv, k, Processing)
    ensures var r := Evolve(inv, i, Finish(i, k, posted, at)); WellFormed(r.0) && Balanced(inv, r)
  {
    if posted {
      RecognizeBalanced(inv, i, k, at);
    } else {
      MoveBalanced(inv, k, Failed);
    }
  }

  // ---- Batches of legs ----

  lemma {:induction false} BalanceOfAppend(rows: seq<Transfer>, t: Transfer, i: nat, a: Account)
    ensures BalanceOf(rows + [t], i, a) == BalanceOf(rows, i, a) + (if Owner(t) == i then Effect(t, a) else 0)
  {
    assert (rows + [t])[..|rows|] == rows;
  }

  /** No leg of the batch is in the ledger yet, and no two of them share a key. */
  ghost predicate Fresh(rows: seq<Transfer>, legs: seq<Leg>) {
    && (forall j, m :: 0 <= j < |rows| && 0 <= m < |legs| ==> !SameKey(rows[j], legs[m].t))
    && (forall m, n :: 0 <= m < n < |legs| ==> !SameKey(legs[m].t, legs[n].t))
  }

  lemma FreshTail(rows: seq<Transfer>, lost: seq<Transfer>, legs: seq<Leg>)
    requires Fresh(rows, legs) && legs != []
    ensures !HasKey(rows, legs[0].t)
    ensures Fresh(Attempt(rows, lost, legs[0]).0, legs[1..])
  {
  }

  /** A fresh batch of one invoice moves its accounts by the legs, posted or lost, and no other invoice's. */
  lemma {:induction false} AttemptAllExplained(rows: seq<Transfer>, lost: seq<Transfer>, legs: seq<Leg>,
                                               o: nat, i: nat, a: Account)
    requires Fresh(rows, legs) && forall m :: 0 <= m < |legs| ==> Owner(legs[m].t) == o
    ensures BalanceOf(AttemptAll(rows, lost, legs).0, i, a) + BalanceOf(AttemptAll(rows, lost, legs).1, i, a)
         == BalanceOf(rows, i, a) + BalanceOf(lost, i, a) + (if i == o then LegsEffect(legs, a) else 0)
    decreases |legs|
  {
    if legs != [] {
      FreshTail(rows, lost, legs);
      var leg := legs[0];
      var (r, l) := Attempt(rows, lost, leg);
      AttemptAllExplained(r, l, legs[1..], o, i, a);
      if leg.ok {
        BalanceOfAppend(rows, leg.t, i, a);
      } else {
        BalanceOfAppend(lost, leg.t, i, a);
      }
    }
  }

  predicate AmongLegs(legs: seq<Leg>, t: Transfer) {
    exists m :: 0 <= m < |legs| && legs[m].t == t
  }

  lemma AmongTail(legs: seq<Leg>)
    requires legs != []
    ensures forall t :: AmongLegs(legs[1..], t) ==> AmongLegs(legs, t)
  {
    forall t | AmongLegs(legs[1..], t) ensures AmongLegs(legs, t) {
      var m :| 0 <= m < |legs[1..]| && legs[1..][m].t == t;
      assert legs[m + 1].t == t;
    }
  }

  /** Rows after a fresh batch: the old ones, then legs of the batch. */
  lemma {:induction false} AttemptAllRows(rows: seq<Transfer>, lost: seq<Transfer>, legs: seq<Leg>)
    requires Fresh(rows, legs)
    ensures var r := AttemptAll(rows, lost, legs).0;
            rows <= r && forall j :: |rows| <= j < |r| ==> AmongLegs(legs, r[j])
    ensures var l := AttemptAll(rows, lost, legs).1;
            lost <= l && forall j :: |lost| <= j < |l| ==> AmongLegs(legs, l[j])
    decreases |legs|
  {
    if legs != [] {
      FreshTail(rows, lost, legs);
      var (rows', lost') := Attempt(rows, lost, legs[0]);
      AttemptAllRows(rows', lost', legs[1..]);
      AmongTail(legs);
      assert AmongLegs(legs, legs[0].t);
    }
  }

  /** A leg whose post succeeds is in the ledger afterwards. */
  lemma {:induction false} AttemptAllPosts(rows: seq<Transfer>, lost: seq<Transfer>, legs: seq<Leg>, m: nat)
    requires Fresh(rows, legs) && m < |legs| && legs[m].ok
    ensures legs[m].t in AttemptAll(rows, lost, legs).0
    decreases |legs|
  {
    FreshTail(rows, lost, legs);
    var (r, l) := Attempt(rows, lost, legs[0]);
    AttemptAllRows(r, l, legs[1..]);
    if m == 0 {
      assert r[|rows|] == legs[0].t && AttemptAll(rows, lost, legs).0[|rows|] == legs[0].t;
    } else {
      AttemptAllPosts(r, l, legs[1..], m - 1);
    }
  }

  // ---- Keys ----

  /** Nothing a posted key relies on is ever taken back. */
  ghost predicate Keeps(inv: Invoice, r: Invoice) {
    && r.subscription == inv.subscription
    && (inv.status == Paid ==> r.status == Paid)
    && (inv.writtenOff ==> r.writtenOff && r.reversed == inv.reversed)
    && (inv.subscription ==> forall k :: AtEvent(inv, k, Recognized) ==> AtEvent(r, k, Recognized))
    && |inv.notes| <= |r.notes|
    && (forall n :: 0 <= n < |inv.notes| && inv.notes[n].unwind.Unwound? ==> r.notes[n].unwind.Unwound?)
  }

  lemma EventsKeep(inv: Invoice, k: nat, to: EventStatus)
    requires k < |inv.events| && inv.events[k].status != Recognized
    ensures Keeps(inv, inv.(events := SetStatus(inv.events, k, to)))
  {
  }

  lemma NotesKeep(inv: Invoice, n: nat, note: Note)
    requires n < |inv.notes| && (inv.notes[n].unwind.Unwound? ==> note.unwind.Unwound?)
    ensures Keeps(inv, inv.(notes := inv.notes[n := note]))
  {
  }

  lemma EditKeeps(inv: Invoice, e: Edit)
    ensures Keeps(inv, Edited(inv, e))
  {
  }

  lemma ScheduleKeeps(inv: Invoice, months: nat, filled: bool)
    requires WellFormed(inv) && Applies(inv, Schedule(0, months, filled))
    ensures Keeps(inv, WithSchedule(inv, months, filled))
  {
  }

  lemma NoteStepKeeps(inv: Invoice, i: nat, s: Step)
    requires Applies(inv, s) && (s.LoadPending? || s.PostReversal? || s.Settle? || s.Bounce?)
    ensures Keeps(inv, Evolve(inv, i, s).0)
  {
    NotesKeep(inv, s.n, Evolve(inv, i, s).0.notes[s.n]);
  }

  lemma EditStepKeeps(inv: Invoice, i: nat, s: Step)
    requires Applies(inv, s) && (s.EditNext? || s.VoidNext?)
    ensures Keeps(inv, Evolve(inv, i, s).0)
  {
    if s.EditNext? {
      EditKeeps(inv, inv.notes[s.n].unwind.edits[0]);
      NotesKeep(inv, s.n, Evolve(inv, i, s).0.notes[s.n]);
    } else {
      EditKeeps(inv, inv.writeOff.edits[0]);
    }
  }

  lemma PlainStepKeeps(inv: Invoice, i: nat, s: Step)
    requires WellFormed(inv) && Applies(inv, s)
    requires s.Pay? || s.MarkUncollectible? || s.ReadRecognized? || s.PostWriteOff? || s.LoadVoids? || s.Refund?
    ensures Keeps(inv, Evolve(inv, i, s).0)
  {
    assert inv.notes <= Evolve(inv, i, s).0.notes;
  }

  lemma EvolveKeeps(inv: Invoice, i: nat, s: Step)
    requires WellFormed(inv) && Applies(inv, s)
    ensures Keeps(inv, Evolve(inv, i, s).0)
  {
    if s.Claim? || s.Finish? || s.Requeue? {
      EventsKeep(inv, s.k, Evolve(inv, i, s).0.events[s.k].status);
    } else if s.EditNext? || s.VoidNext? {
      EditStepKeeps(inv, i, s);
    } else if s.LoadPending? || s.PostReversal? || s.Settle? || s.Bounce? {
      NoteStepKeeps(inv, i, s);
    } else if s.Schedule? {
      ScheduleKeeps(inv, s.months, s.filled);
    } else {
      PlainStepKeeps(inv, i, s);
    }
  }

  lemma KeyOkCarries(inv: Invoice, r: Invoice, t: Transfer)
    requires KeyOk(inv, t) && Keeps(inv, r)
    ensures KeyOk(r, t)
  {
  }

  /** The key of a leg posted by a step: not yet possible in the old state, justified by the new one. */
  ghost predicate LegShape(inv: Invoice, r: Invoice, i: nat, t: Transfer) {
    Owner(t) == i && !KeyPossible(inv, t) && KeyOk(r, t)
  }

  /** Whether the state could have posted a leg with that key. */
  ghost predicate KeyPossible(inv: Invoice, t: Transfer) {
    match t.reference
    case InvoiceRef(_) =>
      || t.code == 1 || t.code == 6
      || (t.code == 3 && inv.status == Paid)
      || (t.code == 22 && inv.writtenOff && inv.reversed > 0)
      || ((t.code == 23 || t.code == 26) && inv.writtenOff)
    case EventRef(_, k) => AtEvent(inv, k, Recognized)
    case RefundRef(_, n) => n < |inv.notes| && (t.code == 5 ==> inv.notes[n].unwind.Unwound?)
    case NoteRef(_) => true
  }

  ghost predicate Shapes(inv: Invoice, i: nat, step: (Invoice, seq<Leg>)) {
    && (forall m :: 0 <= m < |step.1| ==> LegShape(inv, step.0, i, step.1[m].t))
    && (forall m, n :: 0 <= m < n < |step.1| ==> step.1[m].t.code != step.1[n].t.code)
  }

  lemma WriteOffShapes(inv: Invoice, i: nat, posted: bool, at: int)
    requires WellFormed(inv) && inv.writeOff.Splitting?
    ensures Shapes(inv, i, PostingWriteOff(inv, i, posted, at))
  {
  }

  lemma RefundShapes(inv: Invoice, i: nat, s: Step)
    requires s.Refund?
    ensures Shapes(inv, i, Refunding(inv, i, s))
  {
  }

  lemma FinishShapes(inv: Invoice, i: nat, s: Step)
    requires WellFormed(inv) && s.Finish? && Applies(inv, s)
    ensures Shapes(inv, i, Evolve(inv, i, s))
  {
    RecognizeWellFormed(inv, s.k);
  }

  lemma ReversalShapes(inv: Invoice, i: nat, s: Step)
    requires s.PostReversal? && Applies(inv, s)
    ensures Shapes(inv, i, Evolve(inv, i, s))
  {
  }

  lemma EvolveShapes(inv: Invoice, i: nat, s: Step)
    requires WellFormed(inv) && Applies(inv, s)
    ensures Shapes(inv, i, Evolve(inv, i, s))
  {
    if s.PostWriteOff? {
      WriteOffShapes(inv, i, s.posted, s.at);
    } else if s.Refund? {
      RefundShapes(inv, i, s);
    } else if s.Finish? {
      FinishShapes(inv, i, s);
    } else if s.PostReversal? {
      ReversalShapes(inv, i, s);
    } else if !s.Pay? {
      assert Evolve(inv, i, s).1 == [];
    }
  }

  /** No leg of a business step is ever swallowed as a replay of an earlier one. */
  lemma EvolveFresh(b: Books, s: Step)
    requires Inv(b) && Takes(b, s)
    ensures Fresh(b.rows, Evolve(b.invoices[s.i], s.i, s).1)
  {
    var (r, legs) := Evolve(b.invoices[s.i], s.i, s);
    EvolveShapes(b.invoices[s.i], s.i, s);
    ShapesFresh(b, s.i, r, legs);
  }

  lemma ShapesFresh(b: Books, i: nat, r: Invoice, legs: seq<Leg>)
    requires Inv(b) && i < |b.invoices| && Shapes(b.invoices[i], i, (r, legs))
    ensures Fresh(b.rows, legs)
  {
    forall j, m | 0 <= j < |b.rows| && 0 <= m < |legs| ensures !SameKey(b.rows[j], legs[m].t) {
      assert LegShape(b.invoices[i], r, i, legs[m].t) && Justified(b.invoices, b.rows[j]);
    }
  }

  // ---- The whole books ----

  lemma UpdateRowsOk(b: Books, i: nat, r: Invoice, legs: seq<Leg>)
    requires Inv(b) && i < |b.invoices| && Keeps(b.invoices[i], r) && Shapes(b.invoices[i], i, (r, legs))
    ensures var c := Update(b, i, r, legs);
            && (forall j :: 0 <= j < |c.rows| ==> Justified(c.invoices, c.rows[j]))
            && (forall j :: 0 <= j < |c.lost| ==> 0 <= Owner(c.lost[j]) < |c.invoices|)
  {
    var c := Update(b, i, r, legs);
    ShapesFresh(b, i, r, legs);
    AttemptAllRows(b.rows, b.lost, legs);
    forall t | AmongLegs(legs, t) ensures Justified(c.invoices, t) {
      var m :| 0 <= m < |legs| && legs[m].t == t;
      assert LegShape(b.invoices[i], r, i, legs[m].t);
    }
    forall j | 0 <= j < |c.rows| ensures Justified(c.invoices, c.rows[j]) {
      if j < |b.rows| {
        assert c.rows[j] == b.rows[j] && Justified(b.invoices, b.rows[j]);
        RowCarries(b, i, r, b.rows[j]);
      }
    }
    forall j | 0 <= j < |c.lost| ensures 0 <= Owner(c.lost[j]) < |c.invoices| {
      if j < |b.lost| {
        assert c.lost[j] == b.lost[j];
      } else {
        assert Justified(c.invoices, c.lost[j]);
      }
    }
  }

  lemma RowCarries(b: Books, i: nat, r: Invoice, t: Transfer)
    requires i < |b.invoices| && Keeps(b.invoices[i], r) && Justified(b.invoices, t)
    ensures Justified(b.invoices[i := r], t)
  {
    if Owner(t) == i {
      KeyOkCarries(b.invoices[i], r, t);
    }
  }

  lemma UpdateExplained(b: Books, i: nat, r: Invoice, legs: seq<Leg>, k: nat)
    requires i < |b.invoices| && k < |b.invoices| && Explained(b, k) && Balanced(b.invoices[i], (r, legs))
    requires Fresh(b.rows, legs) && forall m :: 0 <= m < |legs| ==> Owner(legs[m].t) == i
    ensures Explained(Update(b, i, r, legs), k)
  {
    var c := Update(b, i, r, legs);
    forall a: Account ensures BalanceOf(c.rows, k, a) + BalanceOf(c.lost, k, a) == Share(c.invoices[k], a) {
      AttemptAllExplained(b.rows, b.lost, legs, i, k, a);
      assert Share(r, a) == Share(b.invoices[i], a) + LegsEffect(legs, a);
    }
  }

  lemma HasWriteOffLegMonotone(rows: seq<Transfer>, more: seq<Transfer>, i: nat)
    requires rows <= more && HasWriteOffLeg(rows, i)
    ensures HasWriteOffLeg(more, i)
  {
  }

  /** A write-off that reversed something is in the ledger: it was, or the batch posts it. */
  predicate LegOfWriteOff(inv: Invoice, i: nat, r: Invoice, legs: seq<Leg>) {
    r.writtenOff && r.reversed > 0 ==>
      || (inv.writtenOff && inv.reversed > 0)
      || (legs != [] && legs[0].ok && legs[0].t.reference == InvoiceRef(i) && legs[0].t.code == 22)
  }

  lemma UpdateWriteOffLeg(b: Books, i: nat, r: Invoice, legs: seq<Leg>, k: nat)
    requires Inv(b) && i < |b.invoices| && k < |b.invoices| && Fresh(b.rows, legs)
    requires LegOfWriteOff(b.invoices[i], i, r, legs)
    requires Update(b, i, r, legs).invoices[k].writtenOff && Update(b, i, r, legs).invoices[k].reversed > 0
    ensures HasWriteOffLeg(Update(b, i, r, legs).rows, k)
  {
    AttemptAllRows(b.rows, b.lost, legs);
    if k != i || (b.invoices[i].writtenOff && b.invoices[i].reversed > 0) {
      HasWriteOffLegMonotone(b.rows, Update(b, i, r, legs).rows, k);
    } else {
      AttemptAllPosts(b.rows, b.lost, legs, 0);
    }
  }

  lemma UpdateInv(b: Books, i: nat, r: Invoice, legs: seq<Leg>)
    requires Inv(b) && i < |b.invoices| && WellFormed(r) && Balanced(b.invoices[i], (r, legs))
    requires Keeps(b.invoices[i], r) && Shapes(b.invoices[i], i, (r, legs)) && LegOfWriteOff(b.invoices[i], i, r, legs)
    ensures Inv(Update(b, i, r, legs))
  {
    var c := Update(b, i, r, legs);
    UpdateRowsOk(b, i, r, legs);
    ShapesFresh(b, i, r, legs);
    forall k | 0 <= k < |c.invoices| && c.invoices[k].writtenOff && c.invoices[k].reversed > 0
      ensures HasWriteOffLeg(c.rows, k) {
      UpdateWriteOffLeg(b, i, r, legs, k);
    }
    forall k | 0 <= k < |c.invoices| ensures Explained(c, k) {
      assert forall m :: 0 <= m < |legs| ==> LegShape(b.invoices[i], r, i, legs[m].t);
      UpdateExplained(b, i, r, legs, k);
    }
  }

  lemma EvolveWriteOffLeg(inv: Invoice, i: nat, s: Step)
    requires WellFormed(inv) && Applies(inv, s)
    ensures LegOfWriteOff(inv, i, Evolve(inv, i, s).0, Evolve(inv, i, s).1)
  {
  }

  lemma EvolveInv(b: Books, s: Step)
    requires Inv(b) && Takes(b, s)
    ensures Inv(Next(b, s))
  {
    var inv := b.invoices[s.i];
    var (r, legs) := Evolve(inv, s.i, s);
    EvolveBalanced(inv, s.i, s);
    EvolveKeeps(inv, s.i, s);
    EvolveShapes(inv, s.i, s);
    EvolveWriteOffLeg(inv, s.i, s);
    UpdateInv(b, s.i, r, legs);
  }

  lemma IssueShare(i: nat, s: Step, a: Account)
    requires s.Issue? && s.tax <= s.total
    ensures LegsEffect(IssueLegs(i, s.subscription, s.total, s.tax, s.posted, s.at), a)
         == Share(NewInvoice(s.subscription, s.total, s.tax), a)
  {
    var revenue := if s.subscription then DeferredRevenue else Revenue;
    var g := Leg(Transfer(Receivable, revenue, s.total, 1, InvoiceRef(i), 0, s.at), s.posted);
    var t := Leg(Transfer(revenue, TaxPayable, s.tax, 6, InvoiceRef(i), 0, s.at), s.posted);
    EffectOfTwo(g, s.tax > 0, t, a);
  }

  lemma IssueFresh(b: Books, s: Step)
    requires Inv(b) && s.Issue?
    ensures Fresh(b.rows, IssueLegs(|b.invoices|, s.subscription, s.total, s.tax, s.posted, s.at))
  {
    var legs := IssueLegs(|b.invoices|, s.subscription, s.total, s.tax, s.posted, s.at);
    forall j, m | 0 <= j < |b.rows| && 0 <= m < |legs| ensures !SameKey(b.rows[j], legs[m].t) {
      assert Justified(b.invoices, b.rows[j]) && Owner(legs[m].t) == |b.invoices|;
    }
  }

  /** An invoice that nothing was posted for has empty accounts. */
  lemma {:induction false} NothingPosted(rows: seq<Transfer>, i: nat, a: Account)
    requires forall j :: 0 <= j < |rows| ==> Owner(rows[j]) != i
    ensures BalanceOf(rows, i, a) == 0
  {
    if rows != [] {
      NothingPosted(rows[..|rows| - 1], i, a);
    }
  }

  lemma IssueExplained(b: Books, s: Step, i: nat)
    requires Inv(b) && s.Issue? && s.tax <= s.total && i <= |b.invoices|
    ensures Explained(Next(b, s), i)
  {
    var o := |b.invoices|;
    var c, legs := Next(b, s), IssueLegs(o, s.subscription, s.total, s.tax, s.posted, s.at);
    IssueFresh(b, s);
    assert forall m :: 0 <= m < |legs| ==> Owner(legs[m].t) == o;
    assert i < o ==> Explained(b, i);
    forall a: Account ensures BalanceOf(c.rows, i, a) + BalanceOf(c.lost, i, a) == Share(c.invoices[i], a) {
      AttemptAllExplained(b.rows, b.lost, legs, o, i, a);
      if i == o {
        assert forall j :: 0 <= j < |b.rows| ==> Justified(b.invoices, b.rows[j]);
        NothingPosted(b.rows, o, a);
        NothingPosted(b.lost, o, a);
        IssueShare(o, s, a);
      }
    }
  }

  lemma IssueInv(b: Books, s: Step)
    requires Inv(b) && s.Issue? && s.tax <= s.total
    ensures Inv(Next(b, s))
  {
    var c := Next(b, s);
    var legs := IssueLegs(|b.invoices|, s.subscription, s.total, s.tax, s.posted, s.at);
    IssueFresh(b, s);
    AttemptAllRows(b.rows, b.lost, legs);
    forall j | 0 <= j < |c.rows| ensures Justified(c.invoices, c.rows[j]) {
      if j < |b.rows| {
        assert c.rows[j] == b.rows[j] && Justified(b.invoices, b.rows[j]);
      }
    }
    forall j | 0 <= j < |c.lost| ensures 0 <= Owner(c.lost[j]) < |c.invoices| {
      if j < |b.lost| {
        assert c.lost[j] == b.lost[j];
      }
    }
    forall k | 0 <= k < |c.invoices| && c.invoices[k].writtenOff && c.invoices[k].reversed > 0
      ensures HasWriteOffLeg(c.rows, k) {
      HasWriteOffLegMonotone(b.rows, c.rows, k);
    }
    forall i | 0 <= i < |c.invoices| ensures Explained(c, i) {
      IssueExplained(b, s, i);
    }
  }

  /** One step, whatever it is and whichever of its posts fail, keeps the invariant. */
  lemma StepInv(b: Books, s: Step)
    requires Inv(b)
    ensures Inv(Next(b, s))
  {
    if s.Issue? {
      if s.tax <= s.total {
        IssueInv(b, s);
      }
    } else if Takes(b, s) {
      EvolveInv(b, s);
    }
  }

  lemma {:induction false} RunInv(b: Books, steps: seq<Step>)
    requires Inv(b)
    ensures Inv(Run(b, steps))
    decreases |steps|
  {
    if steps != [] {
      StepInv(b, steps[0]);
      RunInv(Next(b, steps[0]), steps[1..]);
    }
  }

  /** Every reachable state, invoice by invoice: the rows posted for it, plus the ones that were lost, come to what
      its business state says, in every account. */
  lemma EveryInvoiceExplained(steps: seq<Step>, i: nat, a: Account)
    requires i < |Run(EMPTY_BOOKS, steps).invoices|
    ensures var b := Run(EMPTY_BOOKS, steps);
            BalanceOf(b.rows, i, a) + BalanceOf(b.lost, i, a) == Share(b.invoices[i], a)
  {
    RunInv(EMPTY_BOOKS, steps);
    assert Explained(Run(EMPTY_BOOKS, steps), i);
  }

  // ---- Accounts ----

  function Spread(rows: seq<Transfer>, n: nat, a: Account): int {
    if n == 0 then 0 else Spread(rows, n - 1, a) + BalanceOf(rows, n - 1, a)
  }

  lemma {:induction false} SpreadAppend(rows: seq<Transfer>, t: Transfer, n: nat, a: Account)
    requires 0 <= Owner(t)
    ensures Spread(rows + [t], n, a) == Spread(rows, n, a) + (if Owner(t) < n then Effect(t, a) else 0)
  {
    if n > 0 {
      SpreadAppend(rows, t, n - 1, a);
      BalanceOfAppend(rows, t, n - 1, a);
    }
  }

  lemma {:induction false} SpreadOfNothing(n: nat, a: Account)
    ensures Spread([], n, a) == 0
  {
    if n > 0 {
      SpreadOfNothing(n - 1, a);
    }
  }

  /** An account is the sum of what the invoices have in it. */
  lemma {:induction false} BalanceSpreads(rows: seq<Transfer>, n: nat, a: Account)
    requires forall j :: 0 <= j < |rows| ==> 0 <= Owner(rows[j]) < n
    ensures Balance(rows, a) == Spread(rows, n, a)
  {
    if rows == [] {
      SpreadOfNothing(n, a);
    } else {
      var before, t := rows[..|rows| - 1], rows[|rows| - 1];
      assert rows == before + [t];
      BalanceSpreads(before, n, a);
      SpreadAppend(before, t, n, a);
    }
  }

  lemma {:induction false} SpreadIsShares(b: Books, n: nat, a: Account)
    requires Inv(b) && n <= |b.invoices|
    ensures Spread(b.rows, n, a) + Spread(b.lost, n, a) == SumShares(b.invoices[..n], a)
  {
    if n > 0 {
      assert Explained(b, n - 1);
      assert b.invoices[..n][..n - 1] == b.invoices[..n - 1];
      SpreadIsShares(b, n - 1, a);
    }
  }

  lemma AccountExplained(b: Books, a: Account)
    requires Inv(b)
    ensures Balance(b.rows, a) + Balance(b.lost, a) == SumShares(b.invoices, a)
  {
    var n := |b.invoices|;
    assert forall j :: 0 <= j < |b.rows| ==> Justified(b.invoices, b.rows[j]);
    BalanceSpreads(b.rows, n, a);
    BalanceSpreads(b.lost, n, a);
    SpreadIsShares(b, n, a);
    assert b.invoices[..n] == b.invoices;
  }

  /** And account by account: the ledger, plus the lost legs, is the sum over the invoices. */
  lemma EveryAccountExplained(steps: seq<Step>, a: Account)
    ensures var b := Run(EMPTY_BOOKS, steps);
            Balance(b.rows, a) + Balance(b.lost, a) == SumShares(b.invoices, a)
  {
    RunInv(EMPTY_BOOKS, steps);
    AccountExplained(Run(EMPTY_BOOKS, steps), a);
  }
}

/**
  The books of invoices, their recognition schedules, refunds and write-offs, as
  a state machine over single statements: a status flip with its postings, a
  read, one update of one event row, one ledger post.  The recognition worker, a
  write-off and any number of refund unwinds of one invoice may interleave, fail
  and stop anywhere.  A leg whose post fails is remembered in `lost`.

  Sources: internal/service/ledger.go (RecordInvoice, RecordPayment,
  RecordInvoiceWriteOff, RecordRefund, RecordRefundTaxReversal,
  RecordDeferredRefundReversal, RecordRecognition), internal/service/revrec.go,
  internal/adapter/db/revrec_repository.go, internal/service/credit_note.go:477-514.
 */
module DeferredBooks {
  import opened Ledger
  import opened RevenueSchedule
  import opened TaxAllocation

  datatype InvoiceStatus = Open | Paid | Uncollectible

  datatype Outcome = Unsettled | Settled | Bounced

  /** Where UnwindOnRefund stands for one refund. */
  datatype Unwind = Loading | Editing(edits: seq<Edit>, reverse: nat) | Unwound(reverse: nat) | Dropped

  /** A gateway refund: its tax slice, what its unwind took out of the events, and what of the plan it missed. */
  datatype Note = Note(amount: nat, tax: nat, outcome: Outcome, unwind: Unwind, taken: int, missed: int)

  /** Where RecordInvoiceWriteOff and the cancellation it triggers stand. */
  datatype WriteOffStage =
    | NoWriteOff | Reading | Splitting(recognized: int) | Listing | Voiding(edits: seq<Edit>) | Over

  datatype Invoice = Invoice(
    subscription: bool,
    total: nat,
    tax: nat,
    status: InvoiceStatus,
    amountPaid: nat,
    active: bool,             // the recognition schedule is active
    events: seq<Event>,
    notes: seq<Note>,
    writeOff: WriteOffStage,
    writtenOff: bool,         // the write-off legs are in the ledger
    reversed: int,            // amount of the code-22 leg
    voided: int)              // taken out of the pending events by the write-off

  /** A ledger leg and whether its post succeeds. */
  datatype Leg = Leg(t: Transfer, ok: bool)

  datatype Books = Books(invoices: seq<Invoice>, rows: seq<Transfer>, lost: seq<Transfer>)

  datatype Step =
    | Issue(subscription: bool, total: nat, tax: nat, posted: bool, at: int)
    | Schedule(i: nat, months: nat, filled: bool)
    | Pay(i: nat, amount: nat, posted: bool, at: int)
    | Claim(i: nat, k: nat)
    | Finish(i: nat, k: nat, posted: bool, at: int)
    | Requeue(i: nat, k: nat)
    | MarkUncollectible(i: nat)
    | ReadRecognized(i: nat, ok: bool)
    | PostWriteOff(i: nat, posted: bool, at: int)
    | LoadVoids(i: nat, ok: bool)
    | VoidNext(i: nat, ok: bool)
    | Refund(i: nat, amount: nat, settled: bool, cashPosted: bool, taxPosted: bool, at: int)
    | LoadPending(i: nat, n: nat, ok: bool)
    | EditNext(i: nat, n: nat, ok: bool)
    | PostReversal(i: nat, n: nat, posted: bool, at: int)
    | Settle(i: nat, n: nat)
    | Bounce(i: nat, n: nat)

  const EMPTY_BOOKS := Books([], [], [])

  function PreTax(inv: Invoice): int {
    inv.total - inv.tax
  }

  function Portion(inv: Invoice, amount: int): nat {
    RefundTaxPortion(amount, inv.tax, inv.total)
  }

  // ---- Sums over the refunds of an invoice ----

  datatype Measure = OfAmount | OfTax | OfActive | OfReversal | OfTaken | OfDrift | OfKept

  /** The drift of a refund is what the events gave up and Deferred did not: the part of an unwind under way, what an
      abandoned one had taken, less what a posted one missed.  What is kept is the net part its unwind leaves in the
      expense. */
  function Weight(n: Note, m: Measure): int {
    match m
    case OfAmount => n.amount
    case OfTax => n.tax
    case OfActive => if n.outcome == Bounced then 0 else n.amount
    case OfReversal => if n.unwind.Unwound? then n.unwind.reverse else 0
    case OfTaken => n.taken
    case OfDrift => if n.unwind.Unwound? then -n.missed else n.taken
    case OfKept =>
      (match n.unwind
       case Loading => 0
       case Editing(_, reverse) => n.amount - n.tax - reverse
       case Unwound(reverse) => n.amount - n.tax - reverse
       case Dropped => n.amount - n.tax)
  }

  function Total(ns: seq<Note>, m: Measure): int {
    if ns == [] then 0 else Total(ns[..|ns| - 1], m) + Weight(ns[|ns| - 1], m)
  }

  /** SumActiveRefundsForInvoice. */
  function ActiveRefunds(inv: Invoice): int {
    Total(inv.notes, OfActive)
  }

  lemma TotalSnoc(ns: seq<Note>, n: Note, m: Measure)
    ensures Total(ns + [n], m) == Total(ns, m) + Weight(n, m)
  {
  }

  lemma {:induction false} TotalUpdate(ns: seq<Note>, i: nat, n: Note, m: Measure)
    requires i < |ns|
    ensures Total(ns[i := n], m) == Total(ns, m) - Weight(ns[i], m) + Weight(n, m)
  {
    var last := |ns| - 1;
    if i == last {
      assert ns[i := n][..last] == ns[..last];
    } else {
      assert ns[i := n][..last] == ns[..last][i := n];
      TotalUpdate(ns[..last], i, n, m);
    }
  }

  lemma {:induction false} TotalNonNegative(ns: seq<Note>, m: Measure)
    requires forall i :: 0 <= i < |ns| ==> Weight(ns[i], m) >= 0
    ensures Total(ns, m) >= 0
    ensures forall i :: 0 <= i < |ns| ==> Weight(ns[i], m) <= Total(ns, m)
  {
    if ns != [] {
      TotalNonNegative(ns[..|ns| - 1], m);
    }
  }

  // ---- What one step does to one invoice ----

  /** CreateScheduleForInvoice: idempotent while a schedule is active; nothing to schedule when the net is 0; the
      event rows are a second insert, which may fail. */
  function WithSchedule(inv: Invoice, months: nat, filled: bool): Invoice {
    if inv.active || (inv.subscription && PreTax(inv) <= 0) then inv
    else if !filled then inv.(active := true)
    else if !inv.subscription then
      inv.(active := true, events := [Event(if PreTax(inv) < 0 then 0 else PreTax(inv), Recognized)])
    else inv.(active := true, events := Allocation(PreTax(inv), if months < 1 then 1 else months))
  }

  function IssueLegs(i: nat, subscription: bool, total: nat, tax: nat, posted: bool, at: int): seq<Leg> {
    var revenue := if subscription then DeferredRevenue else Revenue;
    [Leg(Transfer(Receivable, revenue, total, 1, InvoiceRef(i), 0, at), posted)] +
    (if tax > 0 then [Leg(Transfer(revenue, TaxPayable, tax, 6, InvoiceRef(i), 0, at), posted)] else [])
  }

  function PayLegs(i: nat, amount: nat, posted: bool, at: int): seq<Leg> {
    if amount > 0 then [Leg(Transfer(Cash, Receivable, amount, 3, InvoiceRef(i), 0, at), posted)] else []
  }

  /** recognizedForInvoice: 0 on a failed read, at most the pre-tax value, all of it for a one-off invoice. */
  function SeenRecognized(inv: Invoice, ok: bool): int {
    if !inv.subscription then PreTax(inv)
    else if !ok then 0
    else if Held(inv.events, Recognized) > PreTax(inv) then PreTax(inv)
    else Held(inv.events, Recognized)
  }

  function WriteOffLegs(i: nat, deferred: int, recognized: int, tax: nat, at: int): seq<Leg> {
    (if deferred > 0
     then [Leg(Transfer(DeferredRevenue, Receivable, deferred, 22, InvoiceRef(i), 0, at), true)] else []) +
    (if recognized > 0
     then [Leg(Transfer(BadDebt, Receivable, recognized, 26, InvoiceRef(i), 0, at), true)] else []) +
    (if tax > 0
     then [Leg(Transfer(TaxPayable, Receivable, tax, 23, InvoiceRef(i), 0, at), true)] else [])
  }

  /** The legs commit together: what was read as recognized to bad debt, the rest out of Deferred, the tax out of Tax
      Payable.  The status has flipped even when they cannot be posted. */
  function PostingWriteOff(inv: Invoice, i: nat, posted: bool, at: int): (Invoice, seq<Leg>)
    requires inv.writeOff.Splitting?
  {
    if !posted || inv.total == 0 then (inv.(writeOff := Over), [])
    else
      var recognized := inv.writeOff.recognized;
      (inv.(writtenOff := true, reversed := PreTax(inv) - recognized, writeOff := Listing),
       WriteOffLegs(i, PreTax(inv) - recognized, recognized, inv.tax, at))
  }

  /** One statement of a plan against the schedule of the invoice. */
  function Edited(inv: Invoice, e: Edit): Invoice {
    inv.(events := Perform(inv.events, e), active := inv.active && !e.Close?)
  }

  /** What it takes out of the pending events. */
  function Taking(inv: Invoice, e: Edit): int {
    Held(inv.events, Pending) - Held(Perform(inv.events, e), Pending)
  }

  function VoidingNext(inv: Invoice, ok: bool): Invoice
    requires inv.writeOff.Voiding? && inv.writeOff.edits != []
  {
    var e, rest := inv.writeOff.edits[0], inv.writeOff.edits[1..];
    if !ok then inv.(writeOff := Over)
    else Edited(inv, e).(voided := inv.voided + Taking(inv, e), writeOff := if rest == [] then Over else Voiding(rest))
  }

  /** The money and the tax of one gateway refund; its unwind follows. */
  function Refunding(inv: Invoice, i: nat, s: Step): (Invoice, seq<Leg>)
    requires s.Refund?
  {
    var n, slice := |inv.notes|, RefundTaxSlice(s.amount, ActiveRefunds(inv), inv.tax, inv.total);
    var tax := if slice < 0 then 0 else slice;
    (inv.(notes := inv.notes + [Note(s.amount, tax, if s.settled then Settled else Unsettled, Loading, 0, 0)]),
     [Leg(Transfer(Refunds, Cash, s.amount, 4, RefundRef(i, n), 0, s.at), s.cashPosted)] +
     (if tax > 0 then [Leg(Transfer(TaxPayable, Refunds, tax, 9, RefundRef(i, n), 0, s.at), s.taxPosted)] else []))
  }

  /** UnwindOnRefund up to its first update: how much of the net refund the pending events still hold, and the updates
      that take it out. */
  function Loaded(inv: Invoice, note: Note, ok: bool): Unwind {
    var reverse := Reversible(inv.active, inv.events, note.amount - note.tax);
    if !ok || reverse == 0 then Dropped
    else Editing(TailEdits(inv.events, reverse) + (if reverse == Held(inv.events, Pending) then [Close] else []),
             reverse)
  }

  function EditingNext(inv: Invoice, n: nat, ok: bool): Invoice
    requires n < |inv.notes| && inv.notes[n].unwind.Editing? && inv.notes[n].unwind.edits != []
  {
    var note := inv.notes[n];
    var e, taking := note.unwind.edits[0], Taking(inv, note.unwind.edits[0]);
    if !ok then inv.(notes := inv.notes[n := note.(unwind := Dropped)])
    else
      Edited(inv, e).(notes := inv.notes[n := note.(unwind := Editing(note.unwind.edits[1..], note.unwind.reverse),
                                                    taken := note.taken + taking,
                                                    missed := note.missed + Cut(e) - taking)])
  }

  function PostingReversal(inv: Invoice, i: nat, n: nat, posted: bool, at: int): (Invoice, seq<Leg>)
    requires n < |inv.notes| && inv.notes[n].unwind.Editing?
  {
    var reverse := inv.notes[n].unwind.reverse;
    (inv.(notes := inv.notes[n := inv.notes[n].(unwind := Unwound(reverse))]),
     if reverse > 0 then [Leg(Transfer(DeferredRevenue, Refunds, reverse, 5, RefundRef(i, n), 0, at), posted)] else [])
  }

  function WithOutcome(inv: Invoice, n: nat, outcome: Outcome): Invoice
    requires n < |inv.notes|
  {
    inv.(notes := inv.notes[n := inv.notes[n].(outcome := outcome)])
  }

  predicate AtEvent(inv: Invoice, k: nat, st: EventStatus) {
    k < |inv.events| && inv.events[k].status == st
  }

  /** Whether the source takes the step at all. */
  predicate Applies(inv: Invoice, s: Step) {
    match s
    case Issue(_, _, _, _, _) => false
    case Schedule(_, _, _) =>
      (inv.status == Open && inv.subscription) || (inv.status == Paid && (inv.active || inv.events == []))
    case Pay(_, amount, _, _) => inv.status == Open && amount <= inv.total
    case Claim(_, k) => AtEvent(inv, k, Pending)
    case Finish(_, k, _, _) => AtEvent(inv, k, Processing)
    case Requeue(_, k) => AtEvent(inv, k, Processing)
    case MarkUncollectible(_) => inv.status == Open
    case ReadRecognized(_, _) => inv.writeOff == Reading
    case PostWriteOff(_, _, _) => inv.writeOff.Splitting?
    case LoadVoids(_, _) => inv.writeOff == Listing
    case VoidNext(_, _) => inv.writeOff.Voiding? && inv.writeOff.edits != []
    case Refund(_, amount, _, _, _, _) =>
      inv.status == Paid && amount > 0 && ActiveRefunds(inv) + amount <= inv.amountPaid
    case LoadPending(_, n, _) => n < |inv.notes| && inv.notes[n].unwind == Loading
    case EditNext(_, n, _) => n < |inv.notes| && inv.notes[n].unwind.Editing? && inv.notes[n].unwind.edits != []
    case PostReversal(_, n, _, _) => n < |inv.notes| && inv.notes[n].unwind.Editing? && inv.notes[n].unwind.edits == []
    case Settle(_, n) => n < |inv.notes| && inv.notes[n].outcome == Unsettled
    case Bounce(_, n) => n < |inv.notes| && inv.notes[n].outcome == Unsettled
  }

  function Evolve(inv: Invoice, i: nat, s: Step): (Invoice, seq<Leg>)
    requires Applies(inv, s)
  {
    match s
    case Schedule(_, months, filled) => (WithSchedule(inv, months, filled), [])
    case Pay(_, amount, posted, at) => (inv.(status := Paid, amountPaid := amount), PayLegs(i, amount, posted, at))
    case Claim(_, k) => (inv.(events := SetStatus(inv.events, k, Processing)), [])
    case Finish(_, k, posted, at) =>
      if posted then
        (inv.(events := SetStatus(inv.events, k, Recognized)),
         [Leg(Transfer(DeferredRevenue, RecognizedRevenue, inv.events[k].amount, 2, EventRef(i, k), 0, at), true)])
      else (inv.(events := SetStatus(inv.events, k, Failed)), [])
    case Requeue(_, k) => (inv.(events := SetStatus(inv.events, k, Pending)), [])
    case MarkUncollectible(_) => (inv.(status := Uncollectible, writeOff := Reading), [])
    case ReadRecognized(_, ok) => (inv.(writeOff := Splitting(SeenRecognized(inv, ok))), [])
    case PostWriteOff(_, posted, at) => PostingWriteOff(inv, i, posted, at)
    case LoadVoids(_, ok) =>
      (inv.(writeOff := if ok && inv.active then Voiding(VoidEdits(inv.events) + [Close]) else Over), [])
    case VoidNext(_, ok) => (VoidingNext(inv, ok), [])
    case Refund(_, _, _, _, _, _) => Refunding(inv, i, s)
    case LoadPending(_, n, ok) =>
      (inv.(notes := inv.notes[n := inv.notes[n].(unwind := Loaded(inv, inv.notes[n], ok))]), [])
    case EditNext(_, n, ok) => (EditingNext(inv, n, ok), [])
    case PostReversal(_, n, posted, at) => PostingReversal(inv, i, n, posted, at)
    case Settle(_, n) => (WithOutcome(inv, n, Settled), [])
    case Bounce(_, n) => (WithOutcome(inv, n, Bounced), [])
  }

  // ---- What one step does to the books ----

  function Attempt(rows: seq<Transfer>, lost: seq<Transfer>, leg: Leg): (seq<Transfer>, seq<Transfer>) {
    if HasKey(rows, leg.t) then (rows, lost)
    else if leg.ok then (rows + [leg.t], lost)
    else (rows, lost + [leg.t])
  }

  function AttemptAll(rows: seq<Transfer>, lost: seq<Transfer>, legs: seq<Leg>): (seq<Transfer>, seq<Transfer>)
    decreases |legs|
  {
    if legs == [] then (rows, lost)
    else
      var (r, l) := Attempt(rows, lost, legs[0]);
      AttemptAll(r, l, legs[1..])
  }

  function NewInvoice(subscription: bool, total: nat, tax: nat): Invoice {
    Invoice(subscription, total, tax, Open, 0, false, [], [], NoWriteOff, false, 0, 0)
  }

  /** One invoice changes and attempts its legs. */
  function Update(b: Books, i: nat, inv: Invoice, legs: seq<Leg>): Books
    requires i < |b.invoices|
  {
    var (rows, lost) := AttemptAll(b.rows, b.lost, legs);
    Books(b.invoices[i := inv], rows, lost)
  }

  /** The step is one the invoice it names takes. */
  predicate Takes(b: Books, s: Step) {
    !s.Issue? && s.i < |b.invoices| && Applies(b.invoices[s.i], s)
  }

  function Next(b: Books, s: Step): Books {
    if s.Issue? then
      if s.tax > s.total then b
      else
        var legs := IssueLegs(|b.invoices|, s.subscription, s.total, s.tax, s.posted, s.at);
        var (rows, lost) := AttemptAll(b.rows, b.lost, legs);
        Books(b.invoices + [NewInvoice(s.subscription, s.total, s.tax)], rows, lost)
    else if Takes(b, s) then
      var (inv, legs) := Evolve(b.invoices[s.i], s.i, s);
      Update(b, s.i, inv, legs)
    else b
  }

  function Run(b: Books, steps: seq<Step>): Books
    decreases |steps|
  {
    if steps == [] then b else Run(Next(b, steps[0]), steps[1..])
  }

  /** A step changes the invoice it names, and no other. */
  lemma NextInvoice(b: Books, s: Step, i: nat)
    requires i < |b.invoices|
    ensures i < |Next(b, s).invoices|
    ensures Next(b, s).invoices[i]
         == if Takes(b, s) && s.i == i then Evolve(b.invoices[i], i, s).0 else b.invoices[i]
  {
  }

  // ---- What an invoice contributes to each account ----

  /** The balance every account should carry for an invoice, read off its business state alone. */
  function Share(inv: Invoice, a: Account): int {
    match a
    case Cash => inv.amountPaid - Total(inv.notes, OfAmount)
    case Receivable => if inv.writtenOff then 0 else inv.total - inv.amountPaid
    case TdsReceivable => 0
    case DeferredRevenue =>
      if inv.subscription
      then PreTax(inv) - Held(inv.events, Recognized) - Total(inv.notes, OfReversal) - inv.reversed else 0
    case TaxPayable => if inv.writtenOff then 0 else inv.tax - Total(inv.notes, OfTax)
    case CustomerCredit => 0
    case Revenue => if inv.subscription then 0 else PreTax(inv)
    case RecognizedRevenue => if inv.subscription then Held(inv.events, Recognized) else 0
    case Refunds => Total(inv.notes, OfAmount) - Total(inv.notes, OfTax) - Total(inv.notes, OfReversal)
    case CreditsIssued => 0
    case BadDebt => if inv.writtenOff then PreTax(inv) - inv.reversed else 0
  }

  function SumShares(invs: seq<Invoice>, a: Account): int {
    if invs == [] then 0 else SumShares(invs[..|invs| - 1], a) + Share(invs[|invs| - 1], a)
  }

  // ---- The invariant ----

  ghost predicate WellFormed(inv: Invoice) {
    && inv.amountPaid <= inv.total && inv.tax <= inv.total
    && ActiveRefunds(inv) <= inv.amountPaid
    && (inv.status != Paid ==> inv.amountPaid == 0 && inv.notes == [])
    && (inv.status != Uncollectible ==> inv.writeOff == NoWriteOff)
    && (forall n :: 0 <= n < |inv.notes| ==> NoteOk(inv.notes[n]))
    && WriteOffOk(inv)
    && (if inv.subscription then SubscriptionOk(inv) else OneOffOk(inv))
  }

  /** What an unwind took, what it missed and what it still has to do are what it reverses: at most the net refund. */
  ghost predicate NoteOk(n: Note) {
    && n.tax <= n.amount
    && match n.unwind
       case Loading => n.taken == 0 && n.missed == 0
       case Editing(edits, reverse) => n.taken + n.missed + Planned(edits) == reverse <= n.amount - n.tax
       case Unwound(reverse) => n.taken + n.missed == reverse <= n.amount - n.tax
       case Dropped => true
  }

  ghost predicate WriteOffOk(inv: Invoice) {
    && (inv.writeOff.Listing? || inv.writeOff.Voiding? ==> inv.writtenOff)
    && (inv.writeOff.Voiding? ==> OnlyVoids(inv.writeOff.edits))
    && (inv.writtenOff ==> inv.writeOff.Listing? || inv.writeOff.Voiding? || inv.writeOff.Over?)
    && (!inv.writtenOff ==> inv.reversed == 0 && inv.voided == 0)
    && (inv.writtenOff ==> 0 <= inv.reversed <= PreTax(inv))
    && (inv.writeOff.Splitting? ==> 0 <= inv.writeOff.recognized <= PreTax(inv))
  }

  predicate NoUnwinds(ns: seq<Note>) {
    forall n :: 0 <= n < |ns| ==> (ns[n].unwind.Loading? || ns[n].unwind.Dropped?) && ns[n].taken == 0
  }

  /** A schedule's value is always somewhere: recognized, pending, claimed, failed, taken by refunds or voided. */
  ghost predicate SubscriptionOk(inv: Invoice) {
    && (inv.writeOff.Splitting? ==> inv.writeOff.recognized <= Held(inv.events, Recognized))
    && (inv.writtenOff ==> PreTax(inv) - inv.reversed <= Held(inv.events, Recognized))
    && (if inv.events == [] then NoUnwinds(inv.notes) && inv.voided == 0
        else
          && Held(inv.events, Recognized) + Held(inv.events, Pending) + Held(inv.events, Processing)
             + Held(inv.events, Failed) + Total(inv.notes, OfTaken) + inv.voided == PreTax(inv)
          && (inv.status == Open || (inv.status == Uncollectible && !inv.writtenOff) ==> inv.active))
  }

  ghost predicate OneOffOk(inv: Invoice) {
    && inv.reversed == 0 && inv.voided == 0 && NoUnwinds(inv.notes)
    && (inv.writeOff.Splitting? ==> inv.writeOff.recognized == PreTax(inv))
    && (inv.active ==> inv.status == Paid)
    && (forall k :: 0 <= k < |inv.events| ==> inv.events[k].status == Recognized)
  }

  /** The invoice a posting belongs to. */
  function Owner(t: Transfer): int {
    match t.reference
    case InvoiceRef(x) => x
    case EventRef(x, _) => x
    case RefundRef(x, _) => x
    case NoteRef(_) => -1
  }

  /** A posted key implies the business state that posted it, so no fresh leg is ever swallowed. */
  ghost predicate KeyOk(inv: Invoice, t: Transfer) {
    && t.occurrence == 0 && t.debit != t.credit
    && match t.reference
       case InvoiceRef(_) =>
         || t.code == 1 || t.code == 6
         || (t.code == 3 && inv.status == Paid)
         || (t.code == 22 && inv.writtenOff && inv.reversed > 0)
         || ((t.code == 23 || t.code == 26) && inv.writtenOff)
       case EventRef(_, k) => AtEvent(inv, k, Recognized) && inv.subscription
       case RefundRef(_, n) => n < |inv.notes| && (t.code == 5 ==> inv.notes[n].unwind.Unwound?)
       case NoteRef(_) => false
  }

  ghost predicate Justified(invs: seq<Invoice>, t: Transfer) {
    0 <= Owner(t) < |invs| && KeyOk(invs[Owner(t)], t)
  }

  /** The rows of one invoice, as they bear on one account. */
  function BalanceOf(rows: seq<Transfer>, i: nat, a: Account): int {
    if rows == [] then 0
    else BalanceOf(rows[..|rows| - 1], i, a) + (if Owner(rows[|rows| - 1]) == i then Effect(rows[|rows| - 1], a) else 0)
  }

  ghost predicate Explained(b: Books, i: nat)
    requires i < |b.invoices|
  {
    forall a: Account :: BalanceOf(b.rows, i, a) + BalanceOf(b.lost, i, a) == Share(b.invoices[i], a)
  }

  ghost predicate Inv(b: Books) {
    && (forall i :: 0 <= i < |b.invoices| ==> WellFormed(b.invoices[i]))
    && (forall j :: 0 <= j < |b.rows| ==> Justified(b.invoices, b.rows[j]))
    && (forall j :: 0 <= j < |b.lost| ==> 0 <= Owner(b.lost[j]) < |b.invoices|)
    && (forall i :: 0 <= i < |b.invoices| && b.invoices[i].writtenOff && b.invoices[i].reversed > 0 ==>
          HasWriteOffLeg(b.rows, i))
    && (forall i :: 0 <= i < |b.invoices| ==> Explained(b, i))
  }

  predicate HasWriteOffLeg(rows: seq<Transfer>, i: nat) {
    exists j :: 0 <= j < |rows| && rows[j].reference == InvoiceRef(i) && rows[j].code == 22
  }
}

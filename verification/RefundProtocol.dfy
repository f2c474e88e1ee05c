/**
  Refund credit notes of one invoice under concurrency
  (internal/service/credit_note.go:387-611, 823-938, 991-1071;
  internal/adapter/db/credit_note_repository.go:36-93, 130-144, 479-494).

  Requests and approvals run as workers whose database statements and gateway
  calls interleave in any order, may fail, and may stop for good at any point;
  webhook events are delivered one at a time.
 */
module RefundProtocol {
  import opened TaxAllocation
  import opened TaxTiling

  datatype NoteStatus = PendingApproval | Issued | Rejected
  datatype RefundStatus = NoRefund | Awaiting | Processed | Failed | ManualRequired

  datatype Note = Note(
    amount: nat,
    direct: bool,           // issued by a checker, not waiting for approval
    status: NoteStatus,
    refund: RefundStatus,
    tracked: bool,          // the gateway's refund id is recorded on the note
    moved: nat,             // successful gateway refunds
    bounced: bool,          // the gateway reported the refund failed after accepting it
    posted: bool)           // the ledger legs were posted

  /** Where a worker stands in createRefund, or in Approve and executeRefundGatewayAndLedger. */
  datatype Stage =
    | SawPending | Claimed | Reverting | PersistingManual
    | Calling | MarkingFailed | Charged(pending: bool) | Posting | Done

  datatype Worker = Worker(note: nat, stage: Stage)

  datatype Invoice = Invoice(total: nat, tax: nat, paid: nat)

  /** `slices` holds the posted refunds, newest first, each with the prior total its worker read. */
  datatype State = State(notes: seq<Note>, workers: seq<Worker>, slices: seq<Racing>)

  datatype Step =
    | Create(amount: nat, maker: bool, manual: bool)
    | Approve(note: nat)
    | Reject(note: nat, ok: bool)
    | Claim(w: nat, ok: bool)
    | Load(w: nat, ok: bool, manual: bool)
    | Revert(w: nat, ok: bool)
    | PersistManual(w: nat, ok: bool)
    | CallGateway(w: nat, accepted: bool, pending: bool)
    | MarkFailed(w: nat, ok: bool)
    | Persist(w: nat, ok: bool)
    | PostLegs(w: nat, read: bool)
    | Webhook(note: nat, succeeded: bool, ok: bool)

  const START := State([], [], [])

  // ---- Sums over notes ----

  /** Refund statuses counted by SumActiveRefundsForInvoice. */
  predicate Active(n: Note) {
    n.refund in {Awaiting, Processed, ManualRequired}
  }

  /** Money of this note is with the customer. */
  predicate Kept(n: Note) {
    n.moved > 0 && !n.bounced
  }

  /** Its money is with the customer or may still go there: a direct refund that is active, or a maker's that was
      approved and has not failed. */
  predicate Committed(n: Note) {
    if n.direct then Active(n) else n.status == Issued && n.refund != Failed
  }

  datatype Measure = AllActive | DirectActive | DirectKept | Posted | AllKept | Exposed

  function Weight(n: Note, m: Measure): nat {
    match m
    case AllActive => if Active(n) then n.amount else 0
    case DirectActive => if n.direct && Active(n) then n.amount else 0
    case DirectKept => if n.direct && Kept(n) then n.amount * n.moved else 0
    case Posted => if n.posted then n.amount else 0
    case AllKept => if Kept(n) then n.amount * n.moved else 0
    case Exposed => if Committed(n) then n.amount else 0
  }

  function Total(ns: seq<Note>, m: Measure): nat {
    if ns == [] then 0 else Total(ns[..|ns| - 1], m) + Weight(ns[|ns| - 1], m)
  }

  lemma TotalSnoc(ns: seq<Note>, n: Note, m: Measure)
    ensures Total(ns + [n], m) == Total(ns, m) + Weight(n, m)
  {
  }

  lemma {:induction false} TotalUpdate(ns: seq<Note>, i: nat, n: Note, m: Measure)
    requires i < |ns|
    ensures Total(ns[i := n], m) == Total(ns, m) - Weight(ns[i], m) + Weight(n, m)
  {
    var last := |ns| - 1;
    if i == last {
      assert ns[i := n][..last] == ns[..last];
    } else {
      assert ns[i := n][..last] == ns[..last][i := n];
      TotalUpdate(ns[..last], i, n, m);
    }
  }

  lemma {:induction false} TotalOrdered(ns: seq<Note>, m: Measure, k: Measure)
    requires forall i :: 0 <= i < |ns| ==> Weight(ns[i], m) <= Weight(ns[i], k)
    ensures Total(ns, m) <= Total(ns, k)
  {
    if ns != [] {
      TotalOrdered(ns[..|ns| - 1], m, k);
    }
  }

  // ---- The protocol ----

  function NewNote(amount: nat, maker: bool, manual: bool): Note {
    Note(amount, !maker, if maker then PendingApproval else Issued,
         if maker then NoRefund else if manual then ManualRequired else Awaiting, false, 0, false, false)
  }

  /** CreateRefundWithinLimit, under the invoice lock; a direct gateway refund goes on to call the gateway. */
  function Creating(inv: Invoice, s: State, amount: nat, maker: bool, manual: bool): State {
    if amount == 0 || amount + Total(s.notes, AllActive) > inv.paid then s
    else
      s.(notes := s.notes + [NewNote(amount, maker, manual)],
         workers := if maker || manual then s.workers else s.workers + [Worker(|s.notes|, Calling)])
  }

  /** What priorRefundedExcluding returns to the worker of a note: 0 on a failed read. */
  function PriorRead(s: State, amount: nat, read: bool): nat {
    var active := Total(s.notes, AllActive);
    if !read || active < amount then 0 else active - amount
  }

  /** A worker's next statement: the note and the stage it leaves. */
  function Advance(n: Note, stage: Stage, step: Step): (Note, Stage) {
    match (stage, step)
    case (SawPending, Claim(_, ok)) =>
      if ok && n.status == PendingApproval then (n.(status := Issued), Claimed) else (n, Done)
    case (Claimed, Load(_, ok, manual)) => (n, if !ok then Reverting else if manual then PersistingManual else Calling)
    case (Reverting, Revert(_, ok)) =>
      (if ok && n.status == Issued then n.(status := PendingApproval) else n, Done)
    case (PersistingManual, PersistManual(_, ok)) =>
      if ok then (n.(refund := ManualRequired, tracked := false), Done) else (n, Reverting)
    case (Calling, CallGateway(_, accepted, pending)) =>
      if accepted then (n.(moved := n.moved + 1), Charged(pending)) else (n, MarkingFailed)
    case (MarkingFailed, MarkFailed(_, ok)) => (if ok then n.(refund := Failed, tracked := false) else n, Done)
    case (Charged(pending), Persist(_, ok)) =>
      if ok then (n.(refund := if pending then Awaiting else Processed, tracked := true), Posting) else (n, Done)
    case (Posting, PostLegs(_, _)) => (n.(posted := true), Done)
    case _ => (n, stage)
  }

  /** ProcessGatewayRefundEvent: only a note the refund id leads to, and only while its refund is pending. */
  function Delivered(n: Note, succeeded: bool, ok: bool): Note {
    if !n.tracked || n.refund != Awaiting || !ok then n
    else n.(refund := if succeeded then Processed else Failed, bounced := !succeeded)
  }

  predicate WorkerStep(s: State, step: Step) {
    && !step.Create? && !step.Approve? && !step.Reject? && !step.Webhook?
    && step.w < |s.workers| && s.workers[step.w].note < |s.notes|
  }

  function Next(inv: Invoice, s: State, step: Step): State {
    match step
    case Create(amount, maker, manual) => Creating(inv, s, amount, maker, manual)
    case Approve(i) =>
      if i < |s.notes| && s.notes[i].status == PendingApproval
      then s.(workers := s.workers + [Worker(i, SawPending)]) else s
    case Reject(i, ok) =>
      if i < |s.notes| && ok && s.notes[i].status == PendingApproval
      then s.(notes := s.notes[i := s.notes[i].(status := Rejected)]) else s
    case Webhook(i, succeeded, ok) =>
      if i < |s.notes| then s.(notes := s.notes[i := Delivered(s.notes[i], succeeded, ok)]) else s
    case _ =>
      if !WorkerStep(s, step) then s
      else
        var worker := s.workers[step.w];
        var (n, stage) := Advance(s.notes[worker.note], worker.stage, step);
        State(s.notes[worker.note := n], s.workers[step.w := Worker(worker.note, stage)],
              if step.PostLegs? && worker.stage == Posting
              then [Racing(n.amount, PriorRead(s, n.amount, step.read))] + s.slices else s.slices)
  }

  function Run(inv: Invoice, s: State, steps: seq<Step>): State
    decreases |steps|
  {
    if steps == [] then s else Run(inv, Next(inv, s, steps[0]), steps[1..])
  }

  // ---- The invariant ----

  ghost predicate NoteOk(n: Note) {
    && n.moved <= 1
    && (n.moved == 1 ==> n.status == Issued)
    && (n.direct ==> n.status == Issued && n.refund != NoRefund)
    && (n.status == PendingApproval ==> n.refund == NoRefund)
    && (n.tracked ==> n.moved == 1 && n.refund in {Awaiting, Processed, Failed})
    && (n.bounced <==> n.tracked && n.refund == Failed)
    && (n.moved == 1 && !n.tracked ==> n.refund == if n.direct then Awaiting else NoRefund)
    && (n.posted ==> n.tracked)
  }

  /** Stages that hold the note: whoever is in one won the compare-and-set, or created the note. */
  predicate Holding(stage: Stage) {
    stage != SawPending && stage != Done
  }

  ghost predicate StageOk(n: Note, stage: Stage) {
    match stage
    case SawPending => true
    case Done => true
    case Posting => n.status == Issued && n.moved == 1 && n.tracked && !n.posted
    case Charged(_) => n.status == Issued && n.moved == 1 && !n.tracked
    case _ =>
      && n.status == Issued && n.moved == 0
      && (stage.Claimed? || stage.Reverting? || stage.PersistingManual? ==> !n.direct)
      && n.refund == if n.direct then Awaiting else NoRefund
  }

  ghost predicate NotesOk(ns: seq<Note>) {
    forall i :: 0 <= i < |ns| ==> NoteOk(ns[i])
  }

  ghost predicate WorkersOk(ns: seq<Note>, ws: seq<Worker>) {
    forall w :: 0 <= w < |ws| ==> ws[w].note < |ns| && StageOk(ns[ws[w].note], ws[w].stage)
  }

  /** No two workers hold the same note. */
  ghost predicate Exclusive(ws: seq<Worker>) {
    forall v, w :: 0 <= v < w < |ws| && Holding(ws[v].stage) && Holding(ws[w].stage) ==> ws[v].note != ws[w].note
  }

  ghost predicate Inv(s: State) {
    NotesOk(s.notes) && WorkersOk(s.notes, s.workers) && Exclusive(s.workers)
    && RacingTotal(s.slices) == Total(s.notes, Posted)
  }

  lemma AdvanceOk(n: Note, stage: Stage, step: Step)
    requires NoteOk(n) && StageOk(n, stage)
    ensures var (n', stage') := Advance(n, stage, step);
            && NoteOk(n') && StageOk(n', stage')
            && n'.amount == n.amount && n'.direct == n.direct && n.moved <= n'.moved
            && (n' != n ==> Holding(stage) || n.status == PendingApproval)
            && (Holding(stage') ==> Holding(stage) || n.status == PendingApproval)
            && (n'.posted != n.posted <==> stage == Posting && step.PostLegs?)
            && (n'.posted != n.posted ==> n'.posted)
            && (n.direct ==> n'.refund == n.refund || Active(n))
  {
  }

  lemma UpdateWorker(ns: seq<Note>, ws: seq<Worker>, w: nat, n: Note, stage: Stage)
    requires NotesOk(ns) && WorkersOk(ns, ws) && Exclusive(ws) && w < |ws|
    requires NoteOk(n) && StageOk(n, stage)
    requires (n != ns[ws[w].note]) || Holding(stage) ==>
        Holding(ws[w].stage) || ns[ws[w].note].status == PendingApproval
    ensures NotesOk(ns[ws[w].note := n])
    ensures WorkersOk(ns[ws[w].note := n], ws[w := Worker(ws[w].note, stage)])
    ensures Exclusive(ws[w := Worker(ws[w].note, stage)])
  {
  }

  lemma WorkerInv(inv: Invoice, s: State, step: Step)
    requires Inv(s) && WorkerStep(s, step)
    ensures Inv(Next(inv, s, step))
  {
    var worker := s.workers[step.w];
    var n := s.notes[worker.note];
    AdvanceOk(n, worker.stage, step);
    var (n', stage') := Advance(n, worker.stage, step);
    TotalUpdate(s.notes, worker.note, n', Posted);
    UpdateWorker(s.notes, s.workers, step.w, n', stage');
  }

  /** A note changed in a way that suits whatever stage its workers are in. */
  lemma UpdateNote(s: State, i: nat, n: Note)
    requires Inv(s) && i < |s.notes| && NoteOk(n)
    requires n.amount == s.notes[i].amount && n.posted == s.notes[i].posted
    requires forall stage :: StageOk(s.notes[i], stage) ==> StageOk(n, stage)
    ensures Inv(s.(notes := s.notes[i := n]))
  {
    TotalUpdate(s.notes, i, n, Posted);
  }

  lemma AddNote(s: State, n: Note)
    requires Inv(s) && NoteOk(n) && !n.posted
    ensures Inv(s.(notes := s.notes + [n]))
  {
    TotalSnoc(s.notes, n, Posted);
  }

  lemma AddWorker(s: State, i: nat, stage: Stage)
    requires Inv(s) && i < |s.notes| && StageOk(s.notes[i], stage)
    requires Holding(stage) ==> forall w :: 0 <= w < |s.workers| ==> s.workers[w].note != i
    ensures Inv(s.(workers := s.workers + [Worker(i, stage)]))
  {
  }

  lemma RejectInv(s: State, i: nat)
    requires Inv(s) && i < |s.notes| && s.notes[i].status == PendingApproval
    ensures Inv(s.(notes := s.notes[i := s.notes[i].(status := Rejected)]))
  {
    var n := s.notes[i].(status := Rejected);
    TotalUpdate(s.notes, i, n, Posted);
  }

  lemma DeliveredOk(n: Note, succeeded: bool, ok: bool)
    requires NoteOk(n)
    ensures var d := Delivered(n, succeeded, ok);
            && NoteOk(d) && (forall stage :: StageOk(n, stage) ==> StageOk(d, stage))
            && d.posted == n.posted && d.amount == n.amount && d.moved == n.moved && d.direct == n.direct
            && (Active(d) ==> Active(n))
  {
  }

  lemma StepInv(inv: Invoice, s: State, step: Step)
    requires Inv(s)
    ensures Inv(Next(inv, s, step))
  {
    match step
    case Create(amount, maker, manual) =>
      if amount > 0 && amount + Total(s.notes, AllActive) <= inv.paid {
        var n := NewNote(amount, maker, manual);
        AddNote(s, n);
        if !maker && !manual {
          AddWorker(s.(notes := s.notes + [n]), |s.notes|, Calling);
        }
      }
    case Approve(i) =>
      if i < |s.notes| && s.notes[i].status == PendingApproval {
        AddWorker(s, i, SawPending);
      }
    case Reject(i, ok) =>
      if i < |s.notes| && s.notes[i].status == PendingApproval {
        RejectInv(s, i);
      }
    case Webhook(i, succeeded, ok) =>
      if i < |s.notes| {
        DeliveredOk(s.notes[i], succeeded, ok);
        UpdateNote(s, i, Delivered(s.notes[i], succeeded, ok));
      }
    case _ =>
      if WorkerStep(s, step) {
        WorkerInv(inv, s, step);
      }
  }

  lemma {:induction false} RunInv(inv: Invoice, s: State, steps: seq<Step>)
    requires Inv(s)
    ensures Inv(Run(inv, s, steps))
    decreases |steps|
  {
    if steps != [] {
      StepInv(inv, s, steps[0]);
      RunInv(inv, Next(inv, s, steps[0]), steps[1..]);
    }
  }

  // ---- At most one refund, and no way back ----

  /** Notes are never removed, their amounts never change, and what moved stays moved. */
  ghost predicate Extends(ns: seq<Note>, later: seq<Note>) {
    && |ns| <= |later|
    && forall i :: 0 <= i < |ns| ==>
         later[i].amount == ns[i].amount && later[i].direct == ns[i].direct && ns[i].moved <= later[i].moved
  }

  lemma StepExtends(inv: Invoice, s: State, step: Step)
    requires Inv(s)
    ensures Extends(s.notes, Next(inv, s, step).notes)
  {
    if WorkerStep(s, step) {
      var worker := s.workers[step.w];
      AdvanceOk(s.notes[worker.note], worker.stage, step);
    }
  }

  lemma {:induction false} RunExtends(inv: Invoice, s: State, steps: seq<Step>)
    requires Inv(s)
    ensures Extends(s.notes, Run(inv, s, steps).notes)
    decreases |steps|
  {
    if steps != [] {
      StepInv(inv, s, steps[0]);
      StepExtends(inv, s, steps[0]);
      RunExtends(inv, Next(inv, s, steps[0]), steps[1..]);
    }
  }

  /** Over every interleaving of requests, approvals, rejections, webhooks and failures, a note has at most one
      successful gateway refund, and once money has moved the note is issued, now and after every further step. */
  lemma OneRefundPerNote(inv: Invoice, steps: seq<Step>, more: seq<Step>, i: nat)
    requires i < |Run(inv, START, steps).notes|
    ensures var s := Run(inv, START, steps);
            var later := Run(inv, s, more);
            && s.notes[i].moved <= 1
            && |s.notes| <= |later.notes|
            && (s.notes[i].moved == 1 ==> later.notes[i].moved == 1 && later.notes[i].status == Issued)
  {
    RunInv(inv, START, steps);
    RunInv(inv, Run(inv, START, steps), more);
    RunExtends(inv, Run(inv, START, steps), more);
  }

  // ---- The over-refund limit ----

  /** A maker's note starts counting when its worker records the outcome; nothing checks the limit again. */
  predicate Activates(s: State, step: Step) {
    && WorkerStep(s, step) && !s.notes[s.workers[step.w].note].direct
    && ((step.Persist? && step.ok && s.workers[step.w].stage.Charged?)
        || (step.PersistManual? && step.ok && s.workers[step.w].stage.PersistingManual?))
  }

  function Activated(s: State, step: Step): nat
    requires WorkerStep(s, step)
  {
    s.notes[s.workers[step.w].note].amount
  }

  lemma AdvanceWeights(n: Note, stage: Stage, step: Step)
    requires NoteOk(n) && StageOk(n, stage)
    ensures var n' := Advance(n, stage, step).0;
            var activates := !n.direct && ((step.Persist? && step.ok && stage.Charged?)
                                           || (step.PersistManual? && step.ok && stage.PersistingManual?));
            && Weight(n', DirectActive) <= Weight(n, DirectActive)
            && (if activates then Weight(n, AllActive) == 0 && Weight(n', AllActive) == n.amount
                else Weight(n', AllActive) <= Weight(n, AllActive))
  {
  }

  /** Other than the guarded insert, only an activation raises what counts as refunded, and never for a direct note. */
  lemma StepWeights(inv: Invoice, s: State, step: Step)
    requires Inv(s) && !step.Create?
    ensures Total(Next(inv, s, step).notes, DirectActive) <= Total(s.notes, DirectActive)
    ensures if Activates(s, step)
            then Total(Next(inv, s, step).notes, AllActive) == Total(s.notes, AllActive) + Activated(s, step)
            else Total(Next(inv, s, step).notes, AllActive) <= Total(s.notes, AllActive)
  {
    if step.Reject? {
      NoteChange(s, step.note, Next(inv, s, step).notes);
    } else if step.Webhook? {
      if step.note < |s.notes| {
        DeliveredOk(s.notes[step.note], step.succeeded, step.ok);
      }
      NoteChange(s, step.note, Next(inv, s, step).notes);
    } else if WorkerStep(s, step) {
      var worker := s.workers[step.w];
      var n' := Advance(s.notes[worker.note], worker.stage, step).0;
      AdvanceWeights(s.notes[worker.note], worker.stage, step);
      TotalUpdate(s.notes, worker.note, n', DirectActive);
      TotalUpdate(s.notes, worker.note, n', AllActive);
    }
  }

  lemma NoteChange(s: State, i: nat, ns: seq<Note>)
    requires ns == s.notes || (i < |s.notes| && |ns| == |s.notes| && ns == s.notes[i := ns[i]])
    requires i < |s.notes| ==> i < |ns| && ns[i].amount == s.notes[i].amount && ns[i].direct == s.notes[i].direct
                               && (Active(ns[i]) ==> Active(s.notes[i]))
    ensures Total(ns, DirectActive) <= Total(s.notes, DirectActive)
    ensures Total(ns, AllActive) <= Total(s.notes, AllActive)
  {
    if ns != s.notes {
      TotalUpdate(s.notes, i, ns[i], DirectActive);
      TotalUpdate(s.notes, i, ns[i], AllActive);
    }
  }

  lemma CreateWeights(inv: Invoice, s: State, step: Step)
    requires step.Create?
    ensures Total(Next(inv, s, step).notes, AllActive) <= Total(s.notes, AllActive)
            || Total(Next(inv, s, step).notes, AllActive) <= inv.paid
    ensures Total(Next(inv, s, step).notes, DirectActive) <= Total(s.notes, DirectActive)
            || Total(Next(inv, s, step).notes, DirectActive) <= inv.paid
  {
    if step.amount > 0 && step.amount + Total(s.notes, AllActive) <= inv.paid {
      var n := NewNote(step.amount, step.maker, step.manual);
      TotalSnoc(s.notes, n, AllActive);
      TotalSnoc(s.notes, n, DirectActive);
      TotalOrdered(s.notes, DirectActive, AllActive);
    }
  }

  lemma {:induction false} DirectStaysWithinPaid(inv: Invoice, s: State, steps: seq<Step>)
    requires Inv(s) && Total(s.notes, DirectActive) <= inv.paid
    ensures Total(Run(inv, s, steps).notes, DirectActive) <= inv.paid
    decreases |steps|
  {
    if steps != [] {
      StepInv(inv, s, steps[0]);
      if steps[0].Create? {
        CreateWeights(inv, s, steps[0]);
      } else {
        StepWeights(inv, s, steps[0]);
      }
      DirectStaysWithinPaid(inv, Next(inv, s, steps[0]), steps[1..]);
    }
  }

  /** A refund whose money is with the customer counts as active, except a maker's whose outcome was never recorded. */
  lemma MovedIsCounted(inv: Invoice, steps: seq<Step>, i: nat)
    requires i < |Run(inv, START, steps).notes|
    ensures var n := Run(inv, START, steps).notes[i];
            Kept(n) ==> (Active(n) <==> n.direct || n.tracked)
  {
    RunInv(inv, START, steps);
  }

  /** In every run, approvals included, directly issued refunds never exceed what was paid: not the amounts counted as
      active, and not the money that actually moved and stayed. */
  lemma DirectRefundsWithinPaid(inv: Invoice, steps: seq<Step>)
    ensures var ns := Run(inv, START, steps).notes; Total(ns, DirectKept) <= Total(ns, DirectActive) <= inv.paid
  {
    RunInv(inv, START, steps);
    DirectStaysWithinPaid(inv, START, steps);
    var ns := Run(inv, START, steps).notes;
    forall i | 0 <= i < |ns| ensures Weight(ns[i], DirectKept) <= Weight(ns[i], DirectActive) {
      KeptIsActive(ns[i]);
    }
    TotalOrdered(ns, DirectKept, DirectActive);
  }

  lemma KeptIsActive(n: Note)
    requires NoteOk(n)
    ensures Weight(n, DirectKept) <= Weight(n, DirectActive)
  {
  }

  /** All recorded refunds, makers' included, stay within what was paid, in every state of the run. */
  predicate LimitHolds(inv: Invoice, s: State, steps: seq<Step>)
    decreases |steps|
  {
    && Total(s.notes, AllActive) <= inv.paid
    && (steps == [] || LimitHolds(inv, Next(inv, s, steps[0]), steps[1..]))
  }

  /** Every approval still fits when its outcome is recorded. */
  predicate ApprovalsFit(inv: Invoice, s: State, steps: seq<Step>)
    decreases |steps|
  {
    steps == [] ||
    (&& (Activates(s, steps[0]) ==> Total(s.notes, AllActive) + Activated(s, steps[0]) <= inv.paid)
     && ApprovalsFit(inv, Next(inv, s, steps[0]), steps[1..]))
  }

  /** The refunds that are recorded as active stay within what was paid throughout a run if and only if every
      approved one fits beside the others when its outcome is recorded. */
  lemma {:induction false} LimitHoldsIff(inv: Invoice, s: State, steps: seq<Step>)
    requires Inv(s) && Total(s.notes, AllActive) <= inv.paid
    ensures LimitHolds(inv, s, steps) <==> ApprovalsFit(inv, s, steps)
    decreases |steps|
  {
    if steps != [] {
      var t := Next(inv, s, steps[0]);
      StepInv(inv, s, steps[0]);
      if steps[0].Create? {
        CreateWeights(inv, s, steps[0]);
      } else {
        StepWeights(inv, s, steps[0]);
      }
      if Total(t.notes, AllActive) <= inv.paid {
        LimitHoldsIff(inv, t, steps[1..]);
      }
    }
  }

  // ---- The money itself ----

  /** The gateway accepts a refund. */
  predicate Charges(s: State, step: Step) {
    WorkerStep(s, step) && step.CallGateway? && step.accepted && s.workers[step.w].stage == Calling
  }

  /** A worker wins the approval of a maker's note. */
  predicate Approves(s: State, step: Step) {
    && WorkerStep(s, step) && step.Claim? && step.ok && s.workers[step.w].stage == SawPending
    && s.notes[s.workers[step.w].note].status == PendingApproval
  }

  lemma AdvanceMoney(n: Note, stage: Stage, step: Step)
    requires NoteOk(n) && StageOk(n, stage)
    ensures var n' := Advance(n, stage, step).0;
            && Weight(n', AllKept)
               == Weight(n, AllKept) + (if stage == Calling && step.CallGateway? && step.accepted then n.amount else 0)
            && (if stage == SawPending && step.Claim? && step.ok && n.status == PendingApproval
                then Weight(n, Exposed) == 0 && Weight(n', Exposed) == n.amount
                else Weight(n', Exposed) <= Weight(n, Exposed))
  {
  }

  lemma DeliveredMoney(n: Note, succeeded: bool, ok: bool)
    requires NoteOk(n)
    ensures Weight(Delivered(n, succeeded, ok), AllKept) <= Weight(n, AllKept)
    ensures Weight(Delivered(n, succeeded, ok), Exposed) <= Weight(n, Exposed)
  {
  }

  /** Only an accepted gateway call raises the money with customers; only a won approval raises, besides a new direct
      refund, what is committed. */
  lemma StepMoney(inv: Invoice, s: State, step: Step)
    requires Inv(s) && !step.Create?
    ensures if Charges(s, step)
            then Total(Next(inv, s, step).notes, AllKept) == Total(s.notes, AllKept) + Activated(s, step)
            else Total(Next(inv, s, step).notes, AllKept) <= Total(s.notes, AllKept)
    ensures if Approves(s, step)
            then Total(Next(inv, s, step).notes, Exposed) == Total(s.notes, Exposed) + Activated(s, step)
            else Total(Next(inv, s, step).notes, Exposed) <= Total(s.notes, Exposed)
  {
    if WorkerStep(s, step) {
      var worker := s.workers[step.w];
      var n' := Advance(s.notes[worker.note], worker.stage, step).0;
      AdvanceMoney(s.notes[worker.note], worker.stage, step);
      TotalUpdate(s.notes, worker.note, n', AllKept);
      TotalUpdate(s.notes, worker.note, n', Exposed);
    } else if step.Webhook? || step.Reject? {
      if step.note < |s.notes| && Next(inv, s, step).notes != s.notes {
        var n' := Next(inv, s, step).notes[step.note];
        DeliveredMoney(s.notes[step.note], step.Webhook? && step.succeeded, step.ok);
        TotalUpdate(s.notes, step.note, n', AllKept);
        TotalUpdate(s.notes, step.note, n', Exposed);
      }
    }
  }

  /** A direct refund that the source's guard lets through. */
  predicate Issues(inv: Invoice, s: State, step: Step) {
    step.Create? && !step.maker && step.amount > 0 && step.amount + Total(s.notes, AllActive) <= inv.paid
  }

  lemma NewMoney(ns: seq<Note>, amount: nat, maker: bool, manual: bool)
    ensures Total(ns + [NewNote(amount, maker, manual)], AllKept) == Total(ns, AllKept)
    ensures Total(ns + [NewNote(amount, maker, manual)], Exposed) == Total(ns, Exposed) + (if maker then 0 else amount)
  {
    var n := NewNote(amount, maker, manual);
    assert !Kept(n);
    TotalSnoc(ns, n, AllKept);
    TotalSnoc(ns, n, Exposed);
  }

  lemma CreateMoney(inv: Invoice, s: State, step: Step)
    requires step.Create?
    ensures Total(Next(inv, s, step).notes, AllKept) == Total(s.notes, AllKept)
    ensures Total(Next(inv, s, step).notes, Exposed)
         == Total(s.notes, Exposed) + (if Issues(inv, s, step) then step.amount else 0)
  {
    if step.amount > 0 && step.amount + Total(s.notes, AllActive) <= inv.paid {
      NewMoney(s.notes, step.amount, step.maker, step.manual);
    }
  }

  /** The money that left and stayed, unrecorded refunds included, stays within what was paid, in every state of the
      run. */
  predicate MoneyHolds(inv: Invoice, s: State, steps: seq<Step>)
    decreases |steps|
  {
    && Total(s.notes, AllKept) <= inv.paid
    && (steps == [] || MoneyHolds(inv, Next(inv, s, steps[0]), steps[1..]))
  }

  /** Before every gateway call that is accepted, the refund fits beside the money already out. */
  predicate ChargesFit(inv: Invoice, s: State, steps: seq<Step>)
    decreases |steps|
  {
    steps == [] ||
    (&& (Charges(s, steps[0]) ==> Total(s.notes, AllKept) + Activated(s, steps[0]) <= inv.paid)
     && ChargesFit(inv, Next(inv, s, steps[0]), steps[1..]))
  }

  /** The money stays within what was paid throughout a run if and only if every refund, just before its gateway call,
      fits beside all the money that is already out. */
  lemma {:induction false} MoneyHoldsIff(inv: Invoice, s: State, steps: seq<Step>)
    requires Inv(s) && Total(s.notes, AllKept) <= inv.paid
    ensures MoneyHolds(inv, s, steps) <==> ChargesFit(inv, s, steps)
    decreases |steps|
  {
    if steps != [] {
      var t := Next(inv, s, steps[0]);
      StepInv(inv, s, steps[0]);
      if steps[0].Create? {
        CreateMoney(inv, s, steps[0]);
      } else {
        StepMoney(inv, s, steps[0]);
      }
      if Total(t.notes, AllKept) <= inv.paid {
        MoneyHoldsIff(inv, t, steps[1..]);
      }
    }
  }

  predicate CommitmentHolds(inv: Invoice, s: State, steps: seq<Step>)
    decreases |steps|
  {
    && Total(s.notes, Exposed) <= inv.paid
    && (steps == [] || CommitmentHolds(inv, Next(inv, s, steps[0]), steps[1..]))
  }

  /** When a maker's note is approved, and when a direct refund is issued, it fits beside all that is committed. */
  predicate CommitmentsFit(inv: Invoice, s: State, steps: seq<Step>)
    decreases |steps|
  {
    steps == [] ||
    (&& (Approves(s, steps[0]) ==> Total(s.notes, Exposed) + Activated(s, steps[0]) <= inv.paid)
     && (Issues(inv, s, steps[0]) ==> Total(s.notes, Exposed) + steps[0].amount <= inv.paid)
     && CommitmentsFit(inv, Next(inv, s, steps[0]), steps[1..]))
  }

  lemma {:induction false} CommitmentHoldsIff(inv: Invoice, s: State, steps: seq<Step>)
    requires Inv(s) && Total(s.notes, Exposed) <= inv.paid
    ensures CommitmentHolds(inv, s, steps) <==> CommitmentsFit(inv, s, steps)
    decreases |steps|
  {
    if steps != [] {
      var t := Next(inv, s, steps[0]);
      StepInv(inv, s, steps[0]);
      if steps[0].Create? {
        CreateMoney(inv, s, steps[0]);
      } else {
        StepMoney(inv, s, steps[0]);
      }
      if Total(t.notes, Exposed) <= inv.paid {
        CommitmentHoldsIff(inv, t, steps[1..]);
      }
    }
  }

  lemma KeptIsCommitted(n: Note)
    requires NoteOk(n)
    ensures Weight(n, AllKept) <= Weight(n, Exposed)
  {
  }

  lemma {:induction false} CommitmentBoundsMoney(inv: Invoice, s: State, steps: seq<Step>)
    requires Inv(s) && CommitmentHolds(inv, s, steps)
    ensures MoneyHolds(inv, s, steps)
    decreases |steps|
  {
    forall i | 0 <= i < |s.notes| ensures Weight(s.notes[i], AllKept) <= Weight(s.notes[i], Exposed) {
      KeptIsCommitted(s.notes[i]);
    }
    TotalOrdered(s.notes, AllKept, Exposed);
    if steps != [] {
      StepInv(inv, s, steps[0]);
      CommitmentBoundsMoney(inv, Next(inv, s, steps[0]), steps[1..]);
    }
  }

  /** What would repair it: were the guard repeated at the approval, and taken over everything committed, then
      whatever fails or races afterwards, no more money than was paid could leave. */
  lemma GuardedApprovalsSuffice(inv: Invoice, steps: seq<Step>)
    requires CommitmentsFit(inv, START, steps)
    ensures MoneyHolds(inv, START, steps)
  {
    CommitmentHoldsIff(inv, START, steps);
    CommitmentBoundsMoney(inv, START, steps);
  }

  lemma RunOne(inv: Invoice, s: State, a: Step)
    ensures Run(inv, s, [a]) == Next(inv, s, a)
  {
  }

  lemma RunTwo(inv: Invoice, s: State, a: Step, b: Step)
    ensures Run(inv, s, [a, b]) == Next(inv, Next(inv, s, a), b)
  {
    assert [a, b][1..] == [b];
    RunOne(inv, Next(inv, s, a), b);
  }

  lemma RunThree(inv: Invoice, s: State, a: Step, b: Step, c: Step)
    ensures Run(inv, s, [a, b, c]) == Next(inv, Next(inv, Next(inv, s, a), b), c)
  {
    assert [a, b, c][1..] == [b, c];
    RunTwo(inv, Next(inv, s, a), b, c);
  }

  // Requests for the whole amount: a maker's, then a checker's ...
  lemma BothRequested(inv: Invoice) returns (steps: seq<Step>)
    requires inv.paid > 0
    ensures Run(inv, START, steps)
         == State([NewNote(inv.paid, true, false), NewNote(inv.paid, false, false)], [Worker(1, Calling)], [])
  {
    var maker, direct := NewNote(inv.paid, true, false), NewNote(inv.paid, false, false);
    TotalSnoc([], maker, AllActive);
    assert [] + [maker] == [maker];
    assert Next(inv, START, Create(inv.paid, true, false)) == State([maker], [], []);
    assert [maker] + [direct] == [maker, direct];
    steps := [Create(inv.paid, true, false), Create(inv.paid, false, false)];
    RunTwo(inv, START, Create(inv.paid, true, false), Create(inv.paid, false, false));
  }

  // ... then the approval of the maker's ...
  lemma Approved(inv: Invoice, s: State) returns (steps: seq<Step>)
    requires s == State([NewNote(inv.paid, true, false), NewNote(inv.paid, false, false)], [Worker(1, Calling)], [])
    ensures Run(inv, s, steps)
         == State([NewNote(inv.paid, true, false).(status := Issued), NewNote(inv.paid, false, false)],
                  [Worker(1, Calling), Worker(0, Calling)], [])
  {
    steps := [Approve(0), Claim(1, true), Load(1, true, false)];
    RunThree(inv, s, Approve(0), Claim(1, true), Load(1, true, false));
    var maker := NewNote(inv.paid, true, false);
    var s1 := Next(inv, s, Approve(0));
    assert s1.workers == [Worker(1, Calling), Worker(0, SawPending)];
    var s2 := Next(inv, s1, Claim(1, true));
    assert s2.workers == [Worker(1, Calling), Worker(0, Claimed)];
    assert s2.notes == [maker.(status := Issued), NewNote(inv.paid, false, false)];
    var s3 := Next(inv, s2, Load(1, true, false));
    assert s3.workers == [Worker(1, Calling), Worker(0, Calling)];
    assert s3.notes == s2.notes;
  }

  // ... then both gateway calls.
  lemma BothCharged(inv: Invoice, s: State) returns (steps: seq<Step>)
    requires s == State([NewNote(inv.paid, true, false).(status := Issued), NewNote(inv.paid, false, false)],
                        [Worker(1, Calling), Worker(0, Calling)], [])
    ensures var t := Run(inv, s, steps);
            |t.notes| == 2 && Kept(t.notes[0]) && Kept(t.notes[1]) && Total(t.notes, AllActive) == 2 * inv.paid
  {
    steps := [CallGateway(0, true, false), CallGateway(1, true, false), Persist(1, true)];
    RunThree(inv, s, CallGateway(0, true, false), CallGateway(1, true, false), Persist(1, true));
    var ns := Run(inv, s, steps).notes;
    assert ns == [ns[0]] + [ns[1]];
    TotalSnoc([ns[0]], ns[1], AllActive);
    assert [ns[0]] == [] + [ns[0]];
    TotalSnoc([], ns[0], AllActive);
  }

  /** Approval can refund twice what was paid: a maker requests the whole amount, a checker refunds it directly before
      the request is approved, and both gateway refunds go through. */
  lemma ApprovalCanExceedPaid(inv: Invoice) returns (steps: seq<Step>)
    requires inv.paid > 0
    ensures var ns := Run(inv, START, steps).notes;
            |ns| == 2 && Kept(ns[0]) && Kept(ns[1]) && Total(ns, AllActive) == 2 * inv.paid
  {
    var request := BothRequested(inv);
    var approve := Approved(inv, Run(inv, START, request));
    var charge := BothCharged(inv, Run(inv, Run(inv, START, request), approve));
    RunConcat(inv, START, request, approve + charge);
    RunConcat(inv, Run(inv, START, request), approve, charge);
    steps := request + (approve + charge);
  }

  lemma {:induction false} RunConcat(inv: Invoice, s: State, xs: seq<Step>, ys: seq<Step>)
    ensures Run(inv, s, xs + ys) == Run(inv, Run(inv, s, xs), ys)
    decreases |xs|
  {
    if xs == [] {
      assert xs + ys == ys;
    } else {
      assert (xs + ys)[1..] == xs[1..] + ys;
      RunConcat(inv, Next(inv, s, xs[0]), xs[1..], ys);
    }
  }

  // ---- An unrecorded refund ----

  lemma RunCons(inv: Invoice, s: State, x: Step, rest: seq<Step>)
    ensures Run(inv, s, [x] + rest) == Run(inv, Next(inv, s, x), rest)
    ensures Total(s.notes, AllActive) <= inv.paid && LimitHolds(inv, Next(inv, s, x), rest) ==>
              LimitHolds(inv, s, [x] + rest)
  {
    assert ([x] + rest)[1..] == rest;
  }

  // A maker's note at various points, and a direct one.
  function Requested(amount: nat, status: NoteStatus, moved: nat): Note {
    Note(amount, false, status, NoRefund, false, moved, false, false)
  }

  lemma NothingRecorded(amount: nat, status: NoteStatus, moved: nat)
    ensures Total([Requested(amount, status, moved)], AllActive) == 0
  {
    TotalSnoc([], Requested(amount, status, moved), AllActive);
    assert [] + [Requested(amount, status, moved)] == [Requested(amount, status, moved)];
  }

  /** A maker's refund of the whole is requested and approved ... */
  lemma RequestApproved(inv: Invoice) returns (steps: seq<Step>)
    requires inv.paid > 0
    ensures Run(inv, START, steps) == State([Requested(inv.paid, Issued, 0)], [Worker(0, Claimed)], [])
    ensures LimitHolds(inv, START, steps)
  {
    NothingRecorded(inv.paid, PendingApproval, 0);
    NothingRecorded(inv.paid, Issued, 0);
    var s1 := Next(inv, START, Create(inv.paid, true, false));
    assert s1 == State([Requested(inv.paid, PendingApproval, 0)], [], []);
    var s2 := Next(inv, s1, Approve(0));
    assert s2 == State([Requested(inv.paid, PendingApproval, 0)], [Worker(0, SawPending)], []);
    var s3 := Next(inv, s2, Claim(0, true));
    assert s3 == State([Requested(inv.paid, Issued, 0)], [Worker(0, Claimed)], []);
    RunCons(inv, s2, Claim(0, true), []);
    RunCons(inv, s1, Approve(0), [Claim(0, true)] + []);
    RunCons(inv, START, Create(inv.paid, true, false), [Approve(0)] + ([Claim(0, true)] + []));
    steps := [Create(inv.paid, true, false)] + ([Approve(0)] + ([Claim(0, true)] + []));
  }

  /** ... and paid out, and its outcome cannot be recorded. */
  lemma PaidUnrecorded(inv: Invoice, s: State) returns (steps: seq<Step>)
    requires inv.paid > 0 && s == State([Requested(inv.paid, Issued, 0)], [Worker(0, Claimed)], [])
    ensures Run(inv, s, steps) == State([Requested(inv.paid, Issued, 1)], [Worker(0, Done)], [])
    ensures LimitHolds(inv, s, steps)
  {
    NothingRecorded(inv.paid, Issued, 0);
    NothingRecorded(inv.paid, Issued, 1);
    var s1 := Next(inv, s, Load(0, true, false));
    assert s1 == State([Requested(inv.paid, Issued, 0)], [Worker(0, Calling)], []);
    var s2 := Next(inv, s1, CallGateway(0, true, false));
    assert s2 == State([Requested(inv.paid, Issued, 1)], [Worker(0, Charged(false))], []);
    var s3 := Next(inv, s2, Persist(0, false));
    assert s3 == State([Requested(inv.paid, Issued, 1)], [Worker(0, Done)], []);
    RunCons(inv, s2, Persist(0, false), []);
    RunCons(inv, s1, CallGateway(0, true, false), [Persist(0, false)] + []);
    RunCons(inv, s, Load(0, true, false), [CallGateway(0, true, false)] + ([Persist(0, false)] + []));
    steps := [Load(0, true, false)] + ([CallGateway(0, true, false)] + ([Persist(0, false)] + []));
  }

  /** A direct refund of the whole is then let through and paid out as well. */
  lemma RefundedBeside(inv: Invoice, s: State) returns (steps: seq<Step>)
    requires inv.paid > 0 && s == State([Requested(inv.paid, Issued, 1)], [Worker(0, Done)], [])
    ensures var ns := Run(inv, s, steps).notes;
            |ns| == 2 && Kept(ns[0]) && Kept(ns[1]) && Total(ns, AllKept) == 2 * inv.paid
    ensures LimitHolds(inv, s, steps)
  {
    var maker, direct := Requested(inv.paid, Issued, 1), NewNote(inv.paid, false, false);
    NothingRecorded(inv.paid, Issued, 1);
    var s1 := Next(inv, s, Create(inv.paid, false, false));
    assert s1 == State([maker, direct], [Worker(0, Done), Worker(1, Calling)], []);
    var s2 := Next(inv, s1, CallGateway(1, true, false));
    assert s2.notes == [maker, direct.(moved := 1)];
    TwoTotals(maker, direct, AllActive);
    TwoTotals(maker, direct.(moved := 1), AllActive);
    TwoTotals(maker, direct.(moved := 1), AllKept);
    RunCons(inv, s1, CallGateway(1, true, false), []);
    RunCons(inv, s, Create(inv.paid, false, false), [CallGateway(1, true, false)] + []);
    steps := [Create(inv.paid, false, false)] + ([CallGateway(1, true, false)] + []);
  }

  lemma TwoTotals(x: Note, y: Note, m: Measure)
    ensures Total([x, y], m) == Weight(x, m) + Weight(y, m)
  {
    TotalSnoc([x], y, m);
    TotalSnoc([], x, m);
    assert [x] + [y] == [x, y] && [] + [x] == [x];
  }

  lemma {:induction false} LimitConcat(inv: Invoice, s: State, xs: seq<Step>, ys: seq<Step>)
    requires LimitHolds(inv, s, xs) && LimitHolds(inv, Run(inv, s, xs), ys)
    ensures LimitHolds(inv, s, xs + ys)
    decreases |xs|
  {
    if xs == [] {
      assert xs + ys == ys;
    } else {
      assert (xs + ys)[1..] == xs[1..] + ys;
      LimitConcat(inv, Next(inv, s, xs[0]), xs[1..], ys);
    }
  }

  /** The limit on recorded refunds can hold throughout while twice what was paid is with the customer: a maker's
      refund is paid out and not recorded, and a direct one is issued beside it. */
  lemma UnrecordedRefundExceedsPaid(inv: Invoice) returns (steps: seq<Step>)
    requires inv.paid > 0
    ensures LimitHolds(inv, START, steps)
    ensures Total(Run(inv, START, steps).notes, AllKept) == 2 * inv.paid
  {
    var request := RequestApproved(inv);
    var pay := PaidUnrecorded(inv, Run(inv, START, request));
    RunConcat(inv, START, request, pay);
    LimitConcat(inv, START, request, pay);
    var beside := RefundedBeside(inv, Run(inv, START, request + pay));
    RunConcat(inv, START, request + pay, beside);
    LimitConcat(inv, START, request + pay, beside);
    steps := request + pay + beside;
  }

  // ---- The tax reversed by racing refunds ----

  predicate AmountsFit(inv: Invoice, ns: seq<Note>) {
    forall i :: 0 <= i < |ns| ==> ns[i].amount <= inv.paid
  }

  lemma AmountsStayFit(inv: Invoice, s: State, step: Step)
    requires Inv(s) && AmountsFit(inv, s.notes)
    ensures AmountsFit(inv, Next(inv, s, step).notes)
  {
    StepExtends(inv, s, step);
  }

  lemma {:induction false} SlicesReadWithin(inv: Invoice, s: State, steps: seq<Step>)
    requires Inv(s) && AmountsFit(inv, s.notes) && LimitHolds(inv, s, steps)
    requires ReadsWithin(s.slices, inv.paid)
    ensures ReadsWithin(Run(inv, s, steps).slices, inv.paid)
    decreases |steps|
  {
    if steps != [] {
      var t := Next(inv, s, steps[0]);
      StepInv(inv, s, steps[0]);
      AmountsStayFit(inv, s, steps[0]);
      assert ReadsWithin(t.slices, inv.paid);
      SlicesReadWithin(inv, t, steps[1..]);
    }
  }

  /** However the workers raced, n posted refunds reverse the invoice's tax to within n minor units of its exact
      share, in every run that keeps to the over-refund limit. */
  lemma RacingWorkersDrift(inv: Invoice, steps: seq<Step>)
    requires inv.paid <= inv.total && inv.total > 0 && LimitHolds(inv, START, steps)
    ensures var rs := Run(inv, START, steps).slices;
            rs != [] ==>
              RacingTotal(rs) * inv.tax - |rs| * inv.total
              < inv.total * RacingSlices(rs, inv.tax, inv.total)
              < RacingTotal(rs) * inv.tax + |rs| * inv.total
  {
    var rs := Run(inv, START, steps).slices;
    SlicesReadWithin(inv, START, steps);
    WiderReads(rs, inv.paid, inv.total);
    if rs != [] {
      RacingDrift(rs, inv.tax, inv.total);
    }
  }

  predicate NoFailureEvents(steps: seq<Step>) {
    forall j :: 0 <= j < |steps| ==> !(steps[j].Webhook? && !steps[j].succeeded)
  }

  predicate NoneBounced(ns: seq<Note>) {
    forall i :: 0 <= i < |ns| ==> !ns[i].bounced
  }

  lemma {:induction false} StaysUnbounced(inv: Invoice, s: State, steps: seq<Step>)
    requires NoneBounced(s.notes) && NoFailureEvents(steps)
    ensures NoneBounced(Run(inv, s, steps).notes)
    decreases |steps|
  {
    if steps != [] {
      assert NoneBounced(Next(inv, s, steps[0]).notes);
      StaysUnbounced(inv, Next(inv, s, steps[0]), steps[1..]);
    }
  }

  lemma {:induction false} LimitAtEnd(inv: Invoice, s: State, steps: seq<Step>)
    requires LimitHolds(inv, s, steps)
    ensures Total(Run(inv, s, steps).notes, AllActive) <= inv.paid
    decreases |steps|
  {
    if steps != [] {
      LimitAtEnd(inv, Next(inv, s, steps[0]), steps[1..]);
    }
  }

  lemma PostedIsActive(n: Note)
    requires NoteOk(n) && !n.bounced
    ensures Weight(n, Posted) <= Weight(n, AllActive)
  {
  }

  lemma PostedWithinTotal(inv: Invoice, steps: seq<Step>)
    requires inv.paid <= inv.total && LimitHolds(inv, START, steps) && NoFailureEvents(steps)
    ensures RacingTotal(Run(inv, START, steps).slices) <= inv.total
    ensures ReadsWithin(Run(inv, START, steps).slices, inv.total)
  {
    var s := Run(inv, START, steps);
    RunInv(inv, START, steps);
    StaysUnbounced(inv, START, steps);
    forall i | 0 <= i < |s.notes| ensures Weight(s.notes[i], Posted) <= Weight(s.notes[i], AllActive) {
      PostedIsActive(s.notes[i]);
    }
    TotalOrdered(s.notes, Posted, AllActive);
    LimitAtEnd(inv, START, steps);
    SlicesReadWithin(inv, START, steps);
    WiderReads(s.slices, inv.paid, inv.total);
  }

  /** And while no accepted refund fails later, they over-reverse the tax by less than one minor unit each. */
  lemma RacingWorkersOverReverse(inv: Invoice, steps: seq<Step>)
    requires inv.paid <= inv.total && inv.total > 0 && LimitHolds(inv, START, steps) && NoFailureEvents(steps)
    ensures var rs := Run(inv, START, steps).slices;
            rs != [] ==> RacingSlices(rs, inv.tax, inv.total) <= inv.tax + |rs| - 1
  {
    PostedWithinTotal(inv, steps);
    if Run(inv, START, steps).slices != [] {
      RacingOverReversal(Run(inv, START, steps).slices, inv.tax, inv.total);
    }
  }

  /** Each refund posts its legs while every other active refund has posted its own, and the prior total is
      readable. */
  predicate OneAtATime(inv: Invoice, s: State, steps: seq<Step>)
    decreases |steps|
  {
    steps == [] ||
    (&& (WorkerStep(s, steps[0]) && steps[0].PostLegs? && s.workers[steps[0].w].stage == Posting ==>
           steps[0].read
           && Total(s.notes, AllActive) == RacingTotal(s.slices) + s.notes[s.workers[steps[0].w].note].amount)
     && OneAtATime(inv, Next(inv, s, steps[0]), steps[1..]))
  }

  lemma TilesGrow(rs: seq<Racing>, amount: nat)
    requires Tiles(rs)
    ensures Tiles([Racing(amount, RacingTotal(rs))] + rs)
  {
    var more := [Racing(amount, RacingTotal(rs))] + rs;
    assert more[1..] == rs;
    forall m: nat ensures Defect(more, m) == 0 {
      assert Defect(rs, m) == 0;
    }
  }

  /** One after another, what the workers read tiles, ... */
  lemma {:induction false} OneAtATimeTiles(inv: Invoice, s: State, steps: seq<Step>)
    requires OneAtATime(inv, s, steps) && Tiles(s.slices)
    ensures Tiles(Run(inv, s, steps).slices)
    decreases |steps|
  {
    if steps != [] {
      var t := Next(inv, s, steps[0]);
      if t.slices != s.slices {
        TilesGrow(s.slices, t.slices[0].amount);
      }
      OneAtATimeTiles(inv, t, steps[1..]);
    }
  }

  /** ... so the slices add up to exactly the portion of the running total, and never exceed the tax. */
  lemma OneAtATimeIsExact(inv: Invoice, steps: seq<Step>)
    requires OneAtATime(inv, START, steps)
    ensures var rs := Run(inv, START, steps).slices;
            && Tiles(rs)
            && RacingSlices(rs, inv.tax, inv.total) == RefundTaxPortion(RacingTotal(rs), inv.tax, inv.total) <= inv.tax
  {
    OneAtATimeTiles(inv, START, steps);
    TilingIsExact(Run(inv, START, steps).slices, inv.tax, inv.total);
  }

  // ---- Two refunds that race ----

  // Direct refunds of 1 and of 2, at various points.
  function Pair(refund: RefundStatus, moved: nat, posted: bool): seq<Note> {
    [Note(1, true, Issued, refund, moved == 1 && refund == Processed, moved, false, posted),
     Note(2, true, Issued, refund, moved == 1 && refund == Processed, moved, false, posted)]
  }

  lemma PairTotal(refund: RefundStatus, moved: nat, posted: bool)
    ensures refund in {Awaiting, Processed} ==> Total(Pair(refund, moved, posted), AllActive) == 3
  {
    TwoTotals(Pair(refund, moved, posted)[0], Pair(refund, moved, posted)[1], AllActive);
  }

  lemma BothIssued(inv: Invoice, first: Step, second: Step)
    requires inv.paid >= 3 && first == Create(1, false, false) && second == Create(2, false, false)
    ensures Next(inv, Next(inv, START, first), second)
         == State(Pair(Awaiting, 0, false), [Worker(0, Calling), Worker(1, Calling)], [])
  {
    var one := NewNote(1, false, false);
    assert Next(inv, START, first) == State([one], [Worker(0, Calling)], []);
    TotalSnoc([], one, AllActive);
    assert [] + [one] == [one];
  }

  lemma BothRecorded(inv: Invoice, s: State) returns (steps: seq<Step>)
    requires s == State(Pair(Awaiting, 0, false), [Worker(0, Calling), Worker(1, Calling)], [])
    ensures Run(inv, s, steps) == State(Pair(Processed, 1, false), [Worker(0, Posting), Worker(1, Posting)], [])
  {
    var s1 := Next(inv, s, CallGateway(0, true, false));
    var s2 := Next(inv, s1, CallGateway(1, true, false));
    assert s2 == State(Pair(Awaiting, 1, false), [Worker(0, Charged(false)), Worker(1, Charged(false))], []);
    var s3 := Next(inv, s2, Persist(0, true));
    var s4 := Next(inv, s3, Persist(1, true));
    assert s4 == State(Pair(Processed, 1, false), [Worker(0, Posting), Worker(1, Posting)], []);
    steps := [CallGateway(0, true, false)]
        + ([CallGateway(1, true, false)] + ([Persist(0, true)] + ([Persist(1, true)] + [])));
    RunCons(inv, s3, Persist(1, true), []);
    RunCons(inv, s2, Persist(0, true), [Persist(1, true)] + []);
    RunCons(inv, s1, CallGateway(1, true, false), [Persist(0, true)] + ([Persist(1, true)] + []));
    RunCons(inv, s, CallGateway(0, true, false), steps[1..]);
  }

  lemma BothPosted(inv: Invoice, s: State) returns (steps: seq<Step>)
    requires s == State(Pair(Processed, 1, false), [Worker(0, Posting), Worker(1, Posting)], [])
    ensures Run(inv, s, steps).slices == [Racing(2, 1), Racing(1, 2)]
  {
    var s1 := Next(inv, s, PostLegs(0, true));
    PairTotal(Processed, 1, false);
    assert s1.slices == [Racing(1, 2)];
    var one, two := s1.notes[0], s1.notes[1];
    assert s1.notes == [one, two];
    TwoTotals(one, two, AllActive);
    var s2 := Next(inv, s1, PostLegs(1, true));
    assert s2.slices == [Racing(2, 1)] + s1.slices;
    RunCons(inv, s1, PostLegs(1, true), []);
    RunCons(inv, s, PostLegs(0, true), [PostLegs(1, true)] + []);
    steps := [PostLegs(0, true)] + ([PostLegs(1, true)] + []);
  }

  /** Two direct refunds of 1 and 2 on a paid invoice of 5 with a tax of 1: each reads the other as already
      refunded, and together they reverse 2, in a run in which every statement succeeds. */
  lemma RacingRunOverReverses(inv: Invoice) returns (steps: seq<Step>)
    requires inv == Invoice(5, 1, 5)
    ensures RacingSlices(Run(inv, START, steps).slices, inv.tax, inv.total) == 2
    ensures !Tiles(Run(inv, START, steps).slices)
  {
    var first, second := Create(1, false, false), Create(2, false, false);
    BothIssued(inv, first, second);
    RunCons(inv, Next(inv, START, first), second, []);
    RunCons(inv, START, first, [second] + []);
    var issued := [first] + ([second] + []);
    var recorded := BothRecorded(inv, Run(inv, START, issued));
    var posted := BothPosted(inv, Run(inv, Run(inv, START, issued), recorded));
    RunConcat(inv, START, issued, recorded);
    RunConcat(inv, START, issued + recorded, posted);
    steps := issued + recorded + posted;
    RacingRefundsCanOverReverse();
    PairDoesNotTile();
  }

  lemma PairDoesNotTile()
    ensures !Tiles([Racing(2, 1), Racing(1, 2)])
  {
    assert [Racing(2, 1), Racing(1, 2)][1..] == [Racing(1, 2)] && [Racing(1, 2)][1..] == [];
    assert Defect([Racing(2, 1), Racing(1, 2)], 1) == -1;
  }
}

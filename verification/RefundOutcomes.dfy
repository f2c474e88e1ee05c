/**
  What single statements of the refund protocol do to what is counted and to
  the money (internal/service/credit_note.go:387-611, 823-938, 991-1071;
  internal/adapter/db/credit_note_repository.go:36-93), note by note: requests,
  the gateway's answers, and its events.
 */
module RefundOutcomes {
  import opened RefundProtocol
  import opened TaxAllocation

  /** Only the one note differs. */
  ghost predicate OnlyNote(s: State, t: State, i: nat) {
    && i < |s.notes| == |t.notes|
    && (forall j :: 0 <= j < |s.notes| && j != i ==> t.notes[j] == s.notes[j])
    && t.notes[i].amount == s.notes[i].amount && t.notes[i].direct == s.notes[i].direct
  }

  lemma OnlyNoteTotals(s: State, t: State, i: nat, m: Measure)
    requires OnlyNote(s, t, i)
    ensures Total(t.notes, m) == Total(s.notes, m) - Weight(s.notes[i], m) + Weight(t.notes[i], m)
  {
    TotalUpdate(s.notes, i, t.notes[i], m);
    assert t.notes == s.notes[i := t.notes[i]];
  }

  /** A refund counts while the gateway works on it, once processed, and when it is to be made by hand. */
  function Counting(n: Note): nat {
    if n.refund == Awaiting || n.refund == Processed || n.refund == ManualRequired then n.amount else 0
  }

  /** What each sum counts, in the notes' columns. */
  function ByColumns(m: Measure): Note -> nat {
    match m
    case AllActive => (n: Note) => Counting(n)
    case DirectActive => (n: Note) => if n.direct then Counting(n) else 0
    case AllKept => (n: Note) => if n.bounced then 0 else n.amount * n.moved
    case DirectKept => (n: Note) => if n.direct && !n.bounced then n.amount * n.moved else 0
    case Posted => (n: Note) => if n.posted then n.amount else 0
    case Exposed => (n: Note) => if n.direct then Counting(n)
                                 else if n.status == Issued && n.refund != RefundStatus.Failed then n.amount else 0
  }

  function SumOf(ns: seq<Note>, f: Note -> nat): nat {
    if ns == [] then 0 else SumOf(ns[..|ns| - 1], f) + f(ns[|ns| - 1])
  }

  lemma {:induction false} TotalsAre(ns: seq<Note>, m: Measure)
    ensures Total(ns, m) == SumOf(ns, ByColumns(m))
  {
    if ns != [] {
      TotalsAre(ns[..|ns| - 1], m);
    }
  }

  // ---- Requests ----

  /** A request is let through exactly when, with everything that counts as refunded, it stays within what was paid.
      A direct one counts at once, by its amount; a maker's not yet. */
  lemma RequestIff(inv: Invoice, s: State, amount: nat, maker: bool, manual: bool)
    ensures var t := Next(inv, s, Create(amount, maker, manual));
            && (t != s <==> 0 < amount <= inv.paid - Total(s.notes, AllActive))
            && (t != s ==>
                  && |t.notes| == |s.notes| + 1 && t.notes[..|s.notes|] == s.notes
                  && t.notes[|s.notes|].amount == amount && t.notes[|s.notes|].moved == 0
                  && t.notes[|s.notes|].status == (if maker then PendingApproval else Issued)
                  && t.notes[|s.notes|].direct == !maker && !t.notes[|s.notes|].posted
                  && t.notes[|s.notes|].refund
                  == (if maker then NoRefund else if manual then ManualRequired else Awaiting)
                  && t.workers == (if maker || manual then s.workers else s.workers + [Worker(|s.notes|, Calling)])
                  && Total(t.notes, AllActive) == Total(s.notes, AllActive) + (if maker then 0 else amount))
  {
    TotalSnoc(s.notes, NewNote(amount, maker, manual), AllActive);
  }

  // ---- The gateway's events ----

  /** A failure event for a refund the gateway is still working on: the note is marked failed, and its amount no
      longer counts, neither as refunded nor as money with the customer. */
  lemma FailureEventFrees(inv: Invoice, s: State, i: nat)
    requires Inv(s) && i < |s.notes| && s.notes[i].tracked && s.notes[i].refund == Awaiting
    ensures var t := Next(inv, s, Webhook(i, false, true));
            && OnlyNote(s, t, i) && t.workers == s.workers && t.slices == s.slices
            && t.notes[i].refund == RefundStatus.Failed && t.notes[i].status == s.notes[i].status
            && Total(t.notes, AllActive) == Total(s.notes, AllActive) - s.notes[i].amount
            && Total(t.notes, AllKept) == Total(s.notes, AllKept) - s.notes[i].amount
  {
    var t := Next(inv, s, Webhook(i, false, true));
    assert NoteOk(s.notes[i]);
    OnlyNoteTotals(s, t, i, AllActive);
    OnlyNoteTotals(s, t, i, AllKept);
  }

  /** A success event marks it processed, and leaves what counts as it was. */
  lemma SuccessEventSettles(inv: Invoice, s: State, i: nat)
    requires Inv(s) && i < |s.notes| && s.notes[i].tracked && s.notes[i].refund == Awaiting
    ensures var t := Next(inv, s, Webhook(i, true, true));
            && OnlyNote(s, t, i) && t.workers == s.workers && t.slices == s.slices
            && t.notes[i] == s.notes[i].(refund := Processed)
            && Total(t.notes, AllActive) == Total(s.notes, AllActive)
            && Total(t.notes, AllKept) == Total(s.notes, AllKept)
  {
    var t := Next(inv, s, Webhook(i, true, true));
    assert NoteOk(s.notes[i]);
    OnlyNoteTotals(s, t, i, AllActive);
    OnlyNoteTotals(s, t, i, AllKept);
  }

  /** Any other event changes nothing: an unknown refund id, one already settled or failed, a write that fails. */
  lemma OtherEventIgnored(inv: Invoice, s: State, i: nat, succeeded: bool, ok: bool)
    requires i < |s.notes| ==> !(s.notes[i].tracked && s.notes[i].refund == Awaiting && ok)
    ensures Next(inv, s, Webhook(i, succeeded, ok)) == s
  {
    if i < |s.notes| {
      assert s.notes[i := s.notes[i]] == s.notes;
    }
  }

  /** So a refund that failed at the gateway can be made again: a request for up to the freed amount is let through,
      as long as the limit held before. */
  lemma FreedAmountIsRefundable(inv: Invoice, s: State, i: nat, amount: nat)
    requires Inv(s) && i < |s.notes| && s.notes[i].tracked && s.notes[i].refund == Awaiting
    requires Total(s.notes, AllActive) <= inv.paid && 0 < amount <= s.notes[i].amount
    ensures var t := Next(inv, s, Webhook(i, false, true));
            Next(inv, t, Create(amount, false, false)) != t
  {
    FailureEventFrees(inv, s, i);
    RequestIff(inv, Next(inv, s, Webhook(i, false, true)), amount, false, false);
  }

  /** Events are harmless when delivered again: after the first, no event for the note changes anything. */
  lemma EventsSettleOnce(inv: Invoice, s: State, i: nat, succeeded: bool, again: bool, ok: bool)
    requires i < |s.notes| && s.notes[i].tracked && s.notes[i].refund == Awaiting
    ensures var t := Next(inv, s, Webhook(i, succeeded, true)); Next(inv, t, Webhook(i, again, ok)) == t
  {
    OtherEventIgnored(inv, Next(inv, s, Webhook(i, succeeded, true)), i, again, ok);
  }

  // ---- The gateway's answer ----

  predicate WorkerAt(s: State, w: nat, stage: Stage) {
    w < |s.workers| && s.workers[w].stage == stage && s.workers[w].note < |s.notes|
  }

  /** A refund the gateway refuses moves no money, is marked failed, and no longer counts. */
  lemma RefusalFrees(inv: Invoice, s: State, w: nat, pending: bool)
    requires Inv(s) && WorkerAt(s, w, Calling)
    ensures var i := s.workers[w].note;
            var t := Next(inv, Next(inv, s, CallGateway(w, false, pending)), MarkFailed(w, true));
            && OnlyNote(s, t, i) && t.notes[i].refund == RefundStatus.Failed && t.notes[i].moved == s.notes[i].moved
            && t.workers[w].stage == Done
            && Total(t.notes, AllKept) == Total(s.notes, AllKept)
            && Total(t.notes, AllActive)
            == Total(s.notes, AllActive) - (if s.notes[i].direct then s.notes[i].amount else 0)
  {
    var i := s.workers[w].note;
    var t := Next(inv, Next(inv, s, CallGateway(w, false, pending)), MarkFailed(w, true));
    assert NoteOk(s.notes[i]) && StageOk(s.notes[i], Calling);
    OnlyNoteTotals(s, t, i, AllActive);
    OnlyNoteTotals(s, t, i, AllKept);
  }

  /** One it accepts moves the amount, is recorded as processed or still pending, and from then on counts, whoever
      issued it. */
  lemma AcceptanceCounts(inv: Invoice, s: State, w: nat, pending: bool)
    requires Inv(s) && WorkerAt(s, w, Calling)
    ensures var i := s.workers[w].note;
            var t := Next(inv, Next(inv, s, CallGateway(w, true, pending)), Persist(w, true));
            && OnlyNote(s, t, i) && t.notes[i].tracked && t.notes[i].moved == s.notes[i].moved + 1
            && t.notes[i].refund == (if pending then Awaiting else Processed)
            && t.workers[w].stage == Posting
            && Total(t.notes, AllKept) == Total(s.notes, AllKept) + s.notes[i].amount
            && Total(t.notes, AllActive)
            == Total(s.notes, AllActive) + (if s.notes[i].direct then 0 else s.notes[i].amount)
  {
    var i := s.workers[w].note;
    var t := Next(inv, Next(inv, s, CallGateway(w, true, pending)), Persist(w, true));
    assert NoteOk(s.notes[i]) && StageOk(s.notes[i], Calling);
    OnlyNoteTotals(s, t, i, AllActive);
    OnlyNoteTotals(s, t, i, AllKept);
  }

  // ---- Approvals ----

  /** Of the workers approving a note, the one whose update finds it pending goes on, and the others stop. */
  lemma ClaimIff(inv: Invoice, s: State, w: nat, ok: bool)
    requires WorkerAt(s, w, SawPending)
    ensures var i := s.workers[w].note;
            var t := Next(inv, s, Claim(w, ok));
            && OnlyNote(s, t, i)
            && (t.workers[w].stage != Done <==> ok && s.notes[i].status == PendingApproval)
            && t.notes[i] == if t.workers[w].stage == Done then s.notes[i] else s.notes[i].(status := Issued)
  {
  }

  /** An approval that cannot load the invoice gives the note back, so that it can be approved again. */
  lemma FailedLoadGivesBack(inv: Invoice, s: State, w: nat, manual: bool)
    requires WorkerAt(s, w, SawPending) && s.notes[s.workers[w].note].status == PendingApproval
    ensures var t := Next(inv, Next(inv, Next(inv, s, Claim(w, true)), Load(w, false, manual)), Revert(w, true));
            t.notes == s.notes && t.workers[w].stage == Done
  {
    var i := s.workers[w].note;
    assert s.notes[i := s.notes[i].(status := Issued)][i := s.notes[i]] == s.notes;
  }

  /** One that cannot be recorded as to be made by hand gives it back too. */
  lemma FailedManualGivesBack(inv: Invoice, s: State, w: nat)
    requires WorkerAt(s, w, SawPending) && s.notes[s.workers[w].note].status == PendingApproval
    ensures var claimed := Next(inv, Next(inv, s, Claim(w, true)), Load(w, true, true));
            var t := Next(inv, Next(inv, claimed, PersistManual(w, false)), Revert(w, true));
            t.notes == s.notes && t.workers[w].stage == Done
  {
    var i := s.workers[w].note;
    assert s.notes[i := s.notes[i].(status := Issued)][i := s.notes[i]] == s.notes;
  }

  /** Giving back reopens an issued note only, and a write that fails leaves the note as it was. */
  lemma RevertIs(inv: Invoice, s: State, w: nat, ok: bool)
    requires WorkerAt(s, w, Reverting)
    ensures var t, i := Next(inv, s, Revert(w, ok)), s.workers[w].note;
            && OnlyNote(s, t, i) && t.workers[w].stage == Done
            && t.notes[i] == if ok && s.notes[i].status == Issued then s.notes[i].(status := PendingApproval)
                             else s.notes[i]
  {
  }

  /** An outcome that cannot be recorded leaves the note as it was, but for the money the gateway moved. */
  lemma UnrecordedOutcome(inv: Invoice, s: State, w: nat, accepted: bool, pending: bool)
    requires WorkerAt(s, w, Calling)
    ensures var i := s.workers[w].note;
            var called := Next(inv, s, CallGateway(w, accepted, pending));
            var t := Next(inv, called, if accepted then Persist(w, false) else MarkFailed(w, false));
            && OnlyNote(s, t, i) && t.workers[w].stage == Done
            && t.notes[i] == s.notes[i].(moved := s.notes[i].moved + (if accepted then 1 else 0))
  {
  }

  /** Without a payment at the gateway, an approved refund is recorded as to be made by hand, and counts. */
  lemma ManualCounts(inv: Invoice, s: State, w: nat)
    requires Inv(s) && WorkerAt(s, w, Claimed)
    ensures var i := s.workers[w].note;
            var t := Next(inv, Next(inv, s, Load(w, true, true)), PersistManual(w, true));
            && OnlyNote(s, t, i) && t.notes[i].refund == ManualRequired && t.notes[i].moved == s.notes[i].moved
            && t.workers[w].stage == Done
            && Total(t.notes, AllActive) == Total(s.notes, AllActive) + s.notes[i].amount
            && Total(t.notes, AllKept) == Total(s.notes, AllKept)
  {
    var i := s.workers[w].note;
    var t := Next(inv, Next(inv, s, Load(w, true, true)), PersistManual(w, true));
    assert NoteOk(s.notes[i]) && StageOk(s.notes[i], Claimed);
    OnlyNoteTotals(s, t, i, AllActive);
    OnlyNoteTotals(s, t, i, AllKept);
  }

  /** A rejection takes a pending note, if its write goes through, and only its status. */
  lemma RejectionIs(inv: Invoice, s: State, i: nat, ok: bool)
    ensures var t := Next(inv, s, Reject(i, ok));
            && (t != s <==> i < |s.notes| && ok && s.notes[i].status == PendingApproval)
            && (t != s ==> OnlyNote(s, t, i) && t.notes[i] == s.notes[i].(status := NoteStatus.Rejected)
                           && t.workers == s.workers && t.slices == s.slices)
  {
    if i < |s.notes| && ok && s.notes[i].status == PendingApproval {
      assert Next(inv, s, Reject(i, ok)).notes[i] != s.notes[i];
    }
  }

  /** A rejected request stays rejected, and no money ever moves for it. */
  lemma {:induction false} RejectedStays(inv: Invoice, s: State, steps: seq<Step>, i: nat)
    requires Inv(s) && i < |s.notes| && s.notes[i].status == NoteStatus.Rejected
    ensures var ns := Run(inv, s, steps).notes;
            i < |ns| && ns[i].status == NoteStatus.Rejected && ns[i].moved == 0
    decreases |steps|
  {
    assert NoteOk(s.notes[i]);
    if steps != [] {
      StepInv(inv, s, steps[0]);
      RejectedStep(inv, s, steps[0], i);
      RejectedStays(inv, Next(inv, s, steps[0]), steps[1..], i);
    }
  }

  lemma RejectedStep(inv: Invoice, s: State, step: Step, i: nat)
    requires Inv(s) && i < |s.notes| && s.notes[i].status == NoteStatus.Rejected
    ensures i < |Next(inv, s, step).notes| && Next(inv, s, step).notes[i].status == NoteStatus.Rejected
  {
    if WorkerStep(s, step) && s.workers[step.w].note == i {
      assert StageOk(s.notes[i], s.workers[step.w].stage);
    }
  }

  // ---- The ledger ----

  /** The legs of a refund are posted once, with the prior total its worker reads: everything else that counts, or
      nothing when the read fails. */
  lemma PostReads(inv: Invoice, s: State, w: nat, read: bool)
    requires Inv(s) && WorkerAt(s, w, Posting)
    ensures var i := s.workers[w].note;
            var t := Next(inv, s, PostLegs(w, read));
            && OnlyNote(s, t, i) && t.notes[i] == s.notes[i].(posted := true) && t.workers[w].stage == Done
            && |t.slices| == |s.slices| + 1 && t.slices[1..] == s.slices && t.slices[0].amount == s.notes[i].amount
            && (!read ==> t.slices[0].prior == 0)
            && (read && Active(s.notes[i]) ==> t.slices[0].prior == OthersActive(s.notes, i))
  {
    var i := s.workers[w].note;
    OthersAre(s.notes, i);
  }

  /** What counts as refunded besides one note. */
  function OthersActive(ns: seq<Note>, i: nat): nat
    requires i < |ns|
  {
    Total(ns[..i], AllActive) + Total(ns[i + 1..], AllActive)
  }

  lemma OthersAre(ns: seq<Note>, i: nat)
    requires i < |ns|
    ensures Total(ns, AllActive) == OthersActive(ns, i) + Weight(ns[i], AllActive)
  {
    assert ns == ns[..i] + [ns[i]] + ns[i + 1..];
    TotalAround(ns[..i], ns[i], ns[i + 1..], AllActive);
  }

  lemma TotalAround(xs: seq<Note>, n: Note, ys: seq<Note>, m: Measure)
    ensures Total(xs + [n] + ys, m) == Total(xs, m) + Weight(n, m) + Total(ys, m)
  {
    TotalConcat(xs + [n], ys, m);
    TotalSnoc(xs, n, m);
  }

  lemma {:induction false} TotalConcat(xs: seq<Note>, ys: seq<Note>, m: Measure)
    ensures Total(xs + ys, m) == Total(xs, m) + Total(ys, m)
  {
    if ys == [] {
      assert xs + ys == xs;
    } else {
      assert (xs + ys)[..|xs + ys| - 1] == xs + ys[..|ys| - 1];
      TotalConcat(xs, ys[..|ys| - 1], m);
    }
  }
}

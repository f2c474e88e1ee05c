/**
  One dunning-campaign execution: leased by workers, one message per step, each
  at its delay from the start (internal/service/dunning_campaign.go:77-291;
  internal/adapter/db/dunning_campaign_repository.go:261-341).

  Times are minutes.  Workers may crash at any point, and a worker that outlives
  its lease overlaps the next one.
 */
module Campaign {
  import opened Options

  const CAMPAIGN_CLAIM_LEASE := 15

  datatype Status = Active | Exhausted | Recovered

  datatype Execution = Execution(index: nat, status: Status, nextStepAt: Option<int>)

  /** A worker reads the invoice, delivers the step, and writes the row; or finds the execution again, closes it,
      reads the invoice once more and clears its columns.  `inv` is the invoice as it read it. */
  datatype Stage =
    | Claimed | Sending(inv: Invoice) | Sent | Finding | Recovering | Closed | Clearing(inv: Invoice) | Done

  /** A process that read the row as `seen` and will write the whole row back. */
  datatype Worker = Worker(seen: Execution, stage: Stage)

  datatype Send = Send(step: nat, at: int)

  /** The invoice's own columns: paid, dunning paused by an operator, payment wall up, dunning managed by the
      campaign. */
  datatype Invoice = Invoice(paid: bool, paused: bool, wall: bool, byCampaign: bool)

  datatype State = State(row: Execution, workers: seq<Worker>, sent: seq<Send>, passes: nat, invoice: Invoice, now: int)

  datatype Step =
    | Tick(minutes: nat)
    | Pay
    | Pause(on: bool)
    | Claim
    | ReadInvoice(w: nat, ok: bool)
    | Deliver(w: nat, saved: bool)
    | Update(w: nat, ok: bool)
    | FindExecution
    | FindAgain(w: nat)
    | MarkRecovered(w: nat, ok: bool)
    | ReadAgain(w: nat, ok: bool)
    | Clear(w: nat, ok: bool)
    | Crash(w: nat)

  /** The campaign: the delay of each step, which steps raise the payment wall, and when the execution started. */
  datatype Plan = Plan(delays: seq<int>, walls: set<nat>, startedAt: int)

  function Trigger(p: Plan): State
    requires p.delays != []
  {
    State(Execution(0, Active, Some(p.startedAt + p.delays[0])), [], [], 0, Invoice(false, false, false, true),
        p.startedAt)
  }

  /** The row after a completed pass over step `index - 1`. */
  function Advanced(p: Plan, index: nat, now: int): Execution {
    if index < |p.delays| then
      var due := p.startedAt + p.delays[index];
      Execution(index, Active, Some(if due < now then now else due))
    else Execution(index, Exhausted, None)
  }

  predicate Due(s: State) {
    s.row.status == Active && s.row.nextStepAt.Some? && s.row.nextStepAt.value <= s.now && !s.invoice.paused
  }

  predicate At(s: State, w: nat, stage: Stage) {
    w < |s.workers| && s.workers[w].stage == stage
  }

  /** InvoiceRepository.Update: the whole row as it was read, but for the operator's pause. */
  function Stored(current: Invoice, written: Invoice): Invoice {
    written.(paused := current.paused)
  }

  predicate AtSending(s: State, w: nat) {
    w < |s.workers| && s.workers[w].stage.Sending?
  }

  /** The next statement of a worker: what becomes of it, and of the rest of the state. */
  function Act(p: Plan, s: State, me: Worker, step: Step): (Worker, State) {
    var done := me.(stage := Done);
    match step
    case ReadInvoice(_, ok) =>
      if me.stage != Claimed then (me, s)
      else if !ok then (done, s)
      else if me.seen.index >= |p.delays| then (done, s.(row := Execution(me.seen.index, Exhausted, None)))
      else (me.(stage := if s.invoice.paid then Finding else Sending(s.invoice)), s)
    case Deliver(_, saved) =>
      if !me.stage.Sending? then (me, s)
      else
        (me.(stage := Sent),
         s.(sent := s.sent + [Send(me.seen.index, s.now)],
            invoice := if me.seen.index in p.walls && saved then Stored(s.invoice, me.stage.inv.(wall := true))
                       else s.invoice))
    case Update(_, ok) =>
      if me.stage != Sent then (me, s)
      else if !ok then (done, s)
      else (done, s.(row := Advanced(p, me.seen.index + 1, s.now), passes := s.passes + 1))
    case FindAgain(_) =>
      if me.stage != Finding then (me, s)
      else if s.row.status == Active then (Worker(s.row, Recovering), s)
      else (done, s)
    case MarkRecovered(_, ok) =>
      if me.stage != Recovering then (me, s)
      else if !ok then (done, s)
      else (me.(stage := Closed), s.(row := Execution(me.seen.index, Recovered, None)))
    case ReadAgain(_, ok) =>
      if me.stage != Closed then (me, s)
      else if ok && (s.invoice.wall || s.invoice.byCampaign) then (me.(stage := Clearing(s.invoice)), s)
      else (done, s)
    case Clear(_, ok) =>
      if !me.stage.Clearing? then (me, s)
      else if !ok then (done, s)
      else (done, s.(invoice := Stored(s.invoice, me.stage.inv.(wall := false, byCampaign := false))))
    case Crash(_) => (done, s)
    case _ => (me, s)
  }

  predicate Works(step: Step) {
    !step.Tick? && !step.Pay? && !step.Pause? && !step.Claim? && !step.FindExecution?
  }

  function Next(p: Plan, s: State, step: Step): State {
    match step
    case Tick(minutes) => s.(now := s.now + minutes)
    case Pay => s.(invoice := s.invoice.(paid := true))
    case Pause(on) => s.(invoice := s.invoice.(paused := on))
    case Claim =>
      if !Due(s) then s
      else
        var leased := s.row.(nextStepAt := Some(s.now + CAMPAIGN_CLAIM_LEASE));
        s.(row := leased, workers := s.workers + [Worker(leased, Claimed)])
    case FindExecution =>
      if s.row.status != Active then s else s.(workers := s.workers + [Worker(s.row, Recovering)])
    case _ =>
      if step.w >= |s.workers| then s
      else
        var (me, t) := Act(p, s, s.workers[step.w], step);
        t.(workers := s.workers[step.w := me])
  }

  function Run(p: Plan, s: State, steps: seq<Step>): State
    decreases |steps|
  {
    if steps == [] then s else Run(p, Next(p, s, steps[0]), steps[1..])
  }

  // ---- Never early ----

  /** An active row's due time is no earlier than its step's delay from the start. */
  predicate RowNotEarly(p: Plan, row: Execution) {
    row.status == Active && row.index < |p.delays| ==>
      row.nextStepAt.Some? && p.startedAt + p.delays[row.index] <= row.nextStepAt.value
  }

  /** A worker that may still send holds a step that is due. */
  predicate WorkerNotEarly(p: Plan, worker: Worker, now: int) {
    && (worker.stage.Sending? ==> worker.seen.index < |p.delays|)
    && ((worker.stage == Claimed || worker.stage.Sending?) && worker.seen.index < |p.delays| ==>
          p.startedAt + p.delays[worker.seen.index] <= now)
  }

  predicate SendNotEarly(p: Plan, send: Send) {
    send.step < |p.delays| && p.startedAt + p.delays[send.step] <= send.at
  }

  ghost predicate NeverEarly(p: Plan, s: State) {
    && RowNotEarly(p, s.row)
    && (forall w :: 0 <= w < |s.workers| ==> WorkerNotEarly(p, s.workers[w], s.now))
    && (forall j :: 0 <= j < |s.sent| ==> SendNotEarly(p, s.sent[j]))
  }

  lemma {:induction false} RunNeverEarly(p: Plan, s: State, steps: seq<Step>)
    requires NeverEarly(p, s)
    ensures NeverEarly(p, Run(p, s, steps))
    decreases |steps|
  {
    if steps != [] {
      StepNeverEarly(p, s, steps[0]);
      RunNeverEarly(p, Next(p, s, steps[0]), steps[1..]);
    }
  }

  lemma ActNotEarly(p: Plan, s: State, me: Worker, step: Step)
    requires RowNotEarly(p, s.row) && WorkerNotEarly(p, me, s.now)
    ensures var (worker, t) := Act(p, s, me, step);
            && RowNotEarly(p, t.row) && WorkerNotEarly(p, worker, t.now) && t.now == s.now
            && (t.sent == s.sent || exists send :: t.sent == s.sent + [send] && SendNotEarly(p, send))
  {
    if step.Deliver? && me.stage.Sending? {
      assert SendNotEarly(p, Send(me.seen.index, s.now));
    }
  }

  lemma StepNeverEarly(p: Plan, s: State, step: Step)
    requires NeverEarly(p, s)
    ensures NeverEarly(p, Next(p, s, step))
  {
    if Works(step) && step.w < |s.workers| {
      ActNotEarly(p, s, s.workers[step.w], step);
    }
  }

  /** In every reachable state, with leases expiring, workers overlapping, crashing and overwriting each other's
      rows, no step is sent before its delay from the start of the campaign. */
  lemma NoStepSentEarly(p: Plan, steps: seq<Step>, j: nat)
    requires p.delays != [] && j < |Run(p, Trigger(p), steps).sent|
    ensures var sent := Run(p, Trigger(p), steps).sent;
            sent[j].step < |p.delays| && sent[j].at >= p.startedAt + p.delays[sent[j].step]
  {
    RunNeverEarly(p, Trigger(p), steps);
  }

  // ---- One worker at a time ----

  predicate Idle(s: State) {
    forall w :: 0 <= w < |s.workers| ==> s.workers[w].stage == Done
  }

  /** No worker starts before the previous one finished or crashed. */
  predicate Serial(p: Plan, s: State, steps: seq<Step>)
    decreases |steps|
  {
    steps == [] ||
    (&& (steps[0].Claim? || steps[0].FindExecution? ==> Idle(s))
     && Serial(p, Next(p, s, steps[0]), steps[1..]))
  }

  predicate OthersDone(s: State) {
    forall w :: 0 <= w < |s.workers| - 1 ==> s.workers[w].stage == Done
  }

  predicate LastDone(s: State) {
    s.workers == [] || s.workers[|s.workers| - 1].stage == Done
  }

  /** The worker has closed the execution and not yet cleared the invoice's columns. */
  predicate Closing(stage: Stage) {
    stage == Closed || stage.Clearing?
  }

  /** Steps are sent in order, nothing is skipped, and a step is repeated only while its pass has not completed. */
  ghost predicate InOrder(sent: seq<Send>, passes: nat) {
    && (forall j :: 0 <= j < |sent| ==> sent[j].step <= passes)
    && (forall i, j :: 0 <= i < j < |sent| ==> sent[i].step <= sent[j].step <= sent[i].step + (j - i))
    && (passes > 0 ==> sent != [] && sent[0].step == 0 && sent[|sent| - 1].step >= passes - 1)
    && (sent != [] ==> sent[0].step == 0)
  }

  ghost predicate Orderly(p: Plan, s: State) {
    && OthersDone(s)
    && s.row.index == s.passes <= |p.delays|
    && (s.row.status == Active ==> s.passes < |p.delays|)
    && (s.row.status == Exhausted ==> s.passes == |p.delays|)
    && InOrder(s.sent, s.passes)
    && (LastDone(s) ||
        var me := s.workers[|s.workers| - 1];
        && me.seen.index == s.passes
        && s.row.status == (if Closing(me.stage) then Recovered else Active)
        && (me.stage == Sent ==> s.sent != [] && s.sent[|s.sent| - 1].step == s.passes))
  }

  /** A worker that is done does nothing. */
  lemma DoneActs(p: Plan, s: State, step: Step)
    requires Works(step) && step.w < |s.workers| && s.workers[step.w].stage == Done
    ensures Next(p, s, step) == s
  {
    assert s.workers[step.w := s.workers[step.w]] == s.workers;
  }

  lemma StepOrderly(p: Plan, s: State, step: Step)
    requires Orderly(p, s) && (step.Claim? || step.FindExecution? ==> Idle(s))
    ensures Orderly(p, Next(p, s, step))
    ensures s.row.status != Active ==> Next(p, s, step).row == s.row && Next(p, s, step).sent == s.sent
    ensures s.passes <= Next(p, s, step).passes <= s.passes + 1
  {
    if Works(step) {
      if step.w < |s.workers| && s.workers[step.w].stage != Done {
        WorkOrderly(p, s, step);
        if s.row.status != Active {
          WorkAfterEnd(p, s, step);
        }
      } else if step.w < |s.workers| {
        DoneActs(p, s, step);
      }
    } else if step.Claim? || step.FindExecution? {
      WorkersKept(p, s, step);
    }
  }

  /** A step that neither sends nor advances. */
  lemma QuietOrderly(p: Plan, s: State, step: Step)
    requires Orderly(p, s) && Works(step) && step.w == |s.workers| - 1 && s.workers[step.w].stage != Done
    requires !step.Deliver? && !step.Update?
    ensures var t := Next(p, s, step); t.sent == s.sent && t.passes == s.passes && Orderly(p, t)
  {
  }

  /** Only the last worker works. */
  lemma WorkOrderly(p: Plan, s: State, step: Step)
    requires Orderly(p, s) && Works(step) && step.w < |s.workers| && s.workers[step.w].stage != Done
    ensures step.w == |s.workers| - 1
    ensures var t := Next(p, s, step); Orderly(p, t) && s.passes <= t.passes <= s.passes + 1
  {
    assert step.w == |s.workers| - 1;
    if step.Deliver? {
      DeliverOrderly(p, s, step);
    } else if step.Update? {
      UpdateOrderly(p, s, step);
    } else {
      QuietOrderly(p, s, step);
    }
  }

  /** An execution that has ended is only ever followed by clearing the columns. */
  lemma WorkAfterEnd(p: Plan, s: State, step: Step)
    requires Orderly(p, s) && Works(step) && step.w < |s.workers| && s.workers[step.w].stage != Done
    requires s.row.status != Active
    ensures var t := Next(p, s, step); t.row == s.row && t.sent == s.sent
  {
    assert step.w == |s.workers| - 1;
  }

  lemma OneMoreInOrder(sent: seq<Send>, passes: nat, at: int)
    requires InOrder(sent, passes)
    ensures InOrder(sent + [Send(passes, at)], passes)
  {
  }

  lemma DeliverOrderly(p: Plan, s: State, step: Step)
    requires Orderly(p, s) && step.Deliver? && step.w == |s.workers| - 1
    ensures Orderly(p, Next(p, s, step))
  {
    var me := s.workers[step.w];
    OneMoreInOrder(s.sent, s.passes, s.now);
    if me.stage.Sending? {
      assert Next(p, s, step).sent == s.sent + [Send(s.passes, s.now)];
    } else {
      assert s.workers[step.w := me] == s.workers;
    }
  }

  lemma UpdateOrderly(p: Plan, s: State, step: Step)
    requires Orderly(p, s) && step.Update? && step.w == |s.workers| - 1
    ensures Orderly(p, Next(p, s, step))
  {
  }

  lemma WorkersKept(p: Plan, s: State, step: Step)
    requires Orderly(p, s) && (step.Claim? || step.FindExecution?) && Idle(s)
    ensures Orderly(p, Next(p, s, step))
  {
  }

  lemma {:induction false} RunOrderly(p: Plan, s: State, steps: seq<Step>)
    requires Orderly(p, s) && Serial(p, s, steps)
    ensures Orderly(p, Run(p, s, steps))
    ensures s.row.status != Active ==> Run(p, s, steps).row == s.row && Run(p, s, steps).sent == s.sent
    decreases |steps|
  {
    if steps != [] {
      StepOrderly(p, s, steps[0]);
      RunOrderly(p, Next(p, s, steps[0]), steps[1..]);
    }
  }

  /** While workers do not overlap: each completed pass advances the index by one, steps go out in order and none is
      skipped, the execution is exhausted exactly when every step had its pass unless it was recovered first, so after
      at most one completed pass per step. */
  lemma PassesInOrder(p: Plan, steps: seq<Step>)
    requires p.delays != [] && Serial(p, Trigger(p), steps)
    ensures var s := Run(p, Trigger(p), steps);
            && s.row.index == s.passes <= |p.delays|
            && InOrder(s.sent, s.passes)
            && (s.row.status != Recovered ==> (s.row.status == Exhausted <==> s.passes == |p.delays|))
  {
    RunOrderly(p, Trigger(p), steps);
  }

  /** And an execution that is exhausted or recovered sends nothing more. */
  lemma EndedStaysEnded(p: Plan, steps: seq<Step>, more: seq<Step>)
    requires p.delays != [] && Serial(p, Trigger(p), steps)
    requires var s := Run(p, Trigger(p), steps); s.row.status != Active && Serial(p, s, more)
    ensures var s := Run(p, Trigger(p), steps);
            Run(p, s, more).row == s.row && Run(p, s, more).sent == s.sent
  {
    RunOrderly(p, Trigger(p), steps);
    RunOrderly(p, Run(p, Trigger(p), steps), more);
  }

  // ---- The lease ----

  /** No one else writes the row: only time passes, payments arrive, and other runners try to claim. */
  predicate OnlyClaims(steps: seq<Step>) {
    forall j :: 0 <= j < |steps| ==> 
      steps[j].Tick? || steps[j].Claim? || steps[j].Pay? || steps[j].Pause? || steps[j].Crash?
  }

  function Elapsed(steps: seq<Step>): nat {
    if steps == [] then 0 else (if steps[0].Tick? then steps[0].minutes else 0) + Elapsed(steps[1..])
  }

  lemma {:induction false} LeaseKeepsOthersOut(p: Plan, s: State, steps: seq<Step>)
    requires s.row.status == Active && s.row.nextStepAt.Some? && OnlyClaims(steps)
    requires s.now + Elapsed(steps) < s.row.nextStepAt.value
    ensures Run(p, s, steps).row == s.row && |Run(p, s, steps).workers| == |s.workers|
    decreases |steps|
  {
    if steps != [] {
      LeaseKeepsOthersOut(p, Next(p, s, steps[0]), steps[1..]);
    }
  }

  /** However many runners try, a due execution is claimed by one of them until the lease runs out, and then, if
      that one has crashed, by another: the step is delayed, never lost. */
  lemma OneClaimPerLease(p: Plan, s: State, steps: seq<Step>)
    requires Due(s) && OnlyClaims(steps)
    ensures var claimed := Next(p, s, Claim);
            var later := Run(p, claimed, steps);
            && |claimed.workers| == |s.workers| + 1
            && (Elapsed(steps) < CAMPAIGN_CLAIM_LEASE ==> |later.workers| == |claimed.workers| && !Due(later))
            && later.row.index == s.row.index && later.row.status == Active
            && later.row.nextStepAt.Some? && later.row.nextStepAt.value <= later.now + CAMPAIGN_CLAIM_LEASE
  {
    var claimed := Next(p, s, Claim);
    if Elapsed(steps) < CAMPAIGN_CLAIM_LEASE {
      LeaseKeepsOthersOut(p, claimed, steps);
      Clock(p, claimed, steps);
    }
    StillLeased(p, claimed, steps);
  }

  lemma {:induction false} Clock(p: Plan, s: State, steps: seq<Step>)
    requires OnlyClaims(steps)
    ensures Run(p, s, steps).now == s.now + Elapsed(steps)
    decreases |steps|
  {
    if steps != [] {
      Clock(p, Next(p, s, steps[0]), steps[1..]);
    }
  }

  lemma {:induction false} StillLeased(p: Plan, s: State, steps: seq<Step>)
    requires s.row.status == Active && s.row.nextStepAt.Some? && s.row.nextStepAt.value <= s.now + CAMPAIGN_CLAIM_LEASE
    requires OnlyClaims(steps)
    ensures var t := Run(p, s, steps);
            && t.row.status == Active && t.row.index == s.row.index
            && t.row.nextStepAt.Some? && t.row.nextStepAt.value <= t.now + CAMPAIGN_CLAIM_LEASE
    decreases |steps|
  {
    if steps != [] {
      StillLeased(p, Next(p, s, steps[0]), steps[1..]);
    }
  }

  // ---- At most once ----

  predicate SentOnce(sent: seq<Send>) {
    forall i, j :: 0 <= i < j < |sent| ==> sent[i].step != sent[j].step
  }

  /** The worker sends a step. */
  predicate Sends(s: State, step: Step) {
    step.Deliver? && AtSending(s, step.w)
  }

  /** A worker that has sent a step crashes, or fails to write that it did. */
  predicate LosesPass(s: State, step: Step) {
    (step.Crash? && At(s, step.w, Sent)) || (step.Update? && !step.ok && At(s, step.w, Sent))
  }

  /** No step is sent after a pass was lost; `lost` says that one was since the last send. */
  predicate NoSendAfterLoss(p: Plan, s: State, steps: seq<Step>, lost: bool)
    decreases |steps|
  {
    steps == [] ||
    (if Sends(s, steps[0]) then !lost && NoSendAfterLoss(p, Next(p, s, steps[0]), steps[1..], false)
     else NoSendAfterLoss(p, Next(p, s, steps[0]), steps[1..], lost || LosesPass(s, steps[0])))
  }

  /** The step that is next in turn has gone out already, and nobody is about to write that it did. */
  predicate Unfinished(s: State) {
    && s.sent != [] && s.sent[|s.sent| - 1].step == s.passes
    && (s.workers == [] || s.workers[|s.workers| - 1].stage != Sent)
  }

  lemma LossIsUnfinished(p: Plan, s: State, step: Step)
    requires Orderly(p, s) && (step.Claim? || step.FindExecution? ==> Idle(s)) && !Sends(s, step)
    ensures Unfinished(Next(p, s, step)) <==> Unfinished(s) || LosesPass(s, step)
    ensures Next(p, s, step).sent == s.sent
  {
    if Works(step) && step.w < |s.workers| {
      if s.workers[step.w].stage == Done {
        DoneActs(p, s, step);
      } else {
        WorkLoses(p, s, step);
      }
    }
  }

  lemma WorkLoses(p: Plan, s: State, step: Step)
    requires Orderly(p, s) && Works(step) && step.w < |s.workers| && s.workers[step.w].stage != Done
    requires !Sends(s, step)
    ensures Unfinished(Next(p, s, step)) <==> Unfinished(s) || LosesPass(s, step)
    ensures Next(p, s, step).sent == s.sent
  {
    assert step.w == |s.workers| - 1;
  }

  lemma SendAppends(p: Plan, s: State, step: Step)
    requires Orderly(p, s) && Sends(s, step)
    ensures !Unfinished(Next(p, s, step)) && Next(p, s, step).sent == s.sent + [Send(s.passes, s.now)]
  {
    assert step.w == |s.workers| - 1;
  }

  lemma OneMoreRepeats(sent: seq<Send>, passes: nat, at: int)
    requires InOrder(sent, passes) && SentOnce(sent)
    ensures SentOnce(sent + [Send(passes, at)]) <==> (sent == [] || sent[|sent| - 1].step != passes)
  {
    var more := sent + [Send(passes, at)];
    if sent != [] && sent[|sent| - 1].step == passes {
      assert more[|sent| - 1].step == more[|sent|].step;
    }
  }

  lemma SendRepeatsIff(p: Plan, s: State, step: Step)
    requires Orderly(p, s) && Sends(s, step)
    ensures !Unfinished(Next(p, s, step))
    ensures SentOnce(s.sent) ==> (SentOnce(Next(p, s, step).sent) <==> !Unfinished(s))
  {
    SendAppends(p, s, step);
    if SentOnce(s.sent) {
      OneMoreRepeats(s.sent, s.passes, s.now);
    }
  }

  /** Sends are never taken back. */
  lemma {:induction false} SentGrows(p: Plan, s: State, steps: seq<Step>)
    ensures s.sent <= Run(p, s, steps).sent
    decreases |steps|
  {
    if steps != [] {
      SentGrows(p, Next(p, s, steps[0]), steps[1..]);
    }
  }

  lemma RepeatStays(sent: seq<Send>, more: seq<Send>)
    requires sent <= more && !SentOnce(sent)
    ensures !SentOnce(more)
  {
    var i, j :| 0 <= i < j < |sent| && sent[i].step == sent[j].step;
    assert more[i].step == more[j].step;
  }

  lemma {:induction false} SentOnceFrom(p: Plan, s: State, steps: seq<Step>)
    requires Orderly(p, s) && Serial(p, s, steps) && SentOnce(s.sent)
    ensures SentOnce(Run(p, s, steps).sent) <==> NoSendAfterLoss(p, s, steps, Unfinished(s))
    decreases |steps|
  {
    if steps != [] {
      var t := Next(p, s, steps[0]);
      StepOrderly(p, s, steps[0]);
      if Sends(s, steps[0]) {
        SendRepeatsIff(p, s, steps[0]);
        if Unfinished(s) {
          SentGrows(p, t, steps[1..]);
          RepeatStays(t.sent, Run(p, t, steps[1..]).sent);
        } else {
          SentOnceFrom(p, t, steps[1..]);
        }
      } else {
        LossIsUnfinished(p, s, steps[0]);
        SentOnceFrom(p, t, steps[1..]);
      }
    }
  }

  /** While workers do not overlap, every step is sent at most once if and only if nothing is sent after a worker
      that had sent its step crashed, or failed to write that it did. */
  lemma SentOnceIff(p: Plan, steps: seq<Step>)
    requires p.delays != [] && Serial(p, Trigger(p), steps)
    ensures SentOnce(Run(p, Trigger(p), steps).sent) <==> NoSendAfterLoss(p, Trigger(p), steps, false)
  {
    SentOnceFrom(p, Trigger(p), steps);
  }

  // ---- Overlapping workers ----

  /** One more than the last step that has gone out so far. */
  function Reached(sent: seq<Send>): nat {
    if sent == [] then 0
    else
      var before, step := Reached(sent[..|sent| - 1]), sent[|sent| - 1].step;
      if before <= step then step + 1 else before
  }

  /** Each message is of the step next in turn, or of one that went out before. */
  predicate NothingSkipped(sent: seq<Send>) {
    sent == [] ||
    (NothingSkipped(sent[..|sent| - 1]) && sent[|sent| - 1].step <= Reached(sent[..|sent| - 1]))
  }

  /** Nobody is ahead of what has gone out, whoever overwrote whose row. */
  predicate NotAhead(worker: Worker, reached: nat) {
    worker.seen.index <= reached && (worker.stage == Sent ==> worker.seen.index < reached)
  }

  ghost predicate NoneAhead(s: State) {
    && NothingSkipped(s.sent) && s.row.index <= Reached(s.sent)
    && forall w :: 0 <= w < |s.workers| ==> NotAhead(s.workers[w], Reached(s.sent))
  }

  lemma SkipsNothing(sent: seq<Send>, next: Send)
    requires NothingSkipped(sent) && next.step <= Reached(sent)
    ensures NothingSkipped(sent + [next]) && Reached(sent) <= Reached(sent + [next])
    ensures next.step < Reached(sent + [next])
  {
    assert (sent + [next])[..|sent|] == sent;
  }

  lemma ActNotAhead(p: Plan, s: State, me: Worker, step: Step)
    requires NothingSkipped(s.sent) && s.row.index <= Reached(s.sent) && NotAhead(me, Reached(s.sent))
    ensures var (worker, t) := Act(p, s, me, step);
            && NothingSkipped(t.sent) && Reached(s.sent) <= Reached(t.sent)
            && t.row.index <= Reached(t.sent) && NotAhead(worker, Reached(t.sent))
  {
    if step.Deliver? && me.stage.Sending? {
      SkipsNothing(s.sent, Send(me.seen.index, s.now));
    }
  }

  lemma StepNoneAhead(p: Plan, s: State, step: Step)
    requires NoneAhead(s)
    ensures NoneAhead(Next(p, s, step))
  {
    if Works(step) && step.w < |s.workers| {
      ActNotAhead(p, s, s.workers[step.w], step);
    }
  }

  lemma {:induction false} RunNoneAhead(p: Plan, s: State, steps: seq<Step>)
    requires NoneAhead(s)
    ensures NoneAhead(Run(p, s, steps))
    decreases |steps|
  {
    if steps != [] {
      StepNoneAhead(p, s, steps[0]);
      RunNoneAhead(p, Next(p, s, steps[0]), steps[1..]);
    }
  }

  predicate InTurn(sent: seq<Send>) {
    forall j :: 0 <= j < |sent| ==> sent[j].step == j
  }

  lemma {:induction false} ReachedBound(sent: seq<Send>)
    requires NothingSkipped(sent)
    ensures Reached(sent) <= |sent|
    ensures InTurn(sent) ==> Reached(sent) == |sent|
  {
    if sent != [] {
      ReachedBound(sent[..|sent| - 1]);
    }
  }

  /** A further message is different from those in turn exactly when its step is not one of theirs. */
  lemma OneMoreDiffers(init: seq<Send>, next: Send)
    requires InTurn(init)
    ensures SentOnce(init + [next]) <==> next.step >= |init|
  {
    if next.step < |init| {
      assert (init + [next])[next.step].step == (init + [next])[|init|].step;
    }
  }

  lemma RepeatInPrefix(init: seq<Send>, sent: seq<Send>)
    requires init <= sent && SentOnce(sent)
    ensures SentOnce(init)
  {
    if !SentOnce(init) {
      RepeatStays(init, sent);
    }
  }

  lemma LastInTurn(init: seq<Send>, last: Send)
    requires InTurn(init) && last.step <= Reached(init) <= |init| && SentOnce(init + [last])
    ensures InTurn(init + [last])
  {
    OneMoreDiffers(init, last);
  }

  lemma {:induction false} DifferentInTurn(sent: seq<Send>)
    requires NothingSkipped(sent) && SentOnce(sent)
    ensures InTurn(sent)
  {
    if sent != [] {
      var init, last := sent[..|sent| - 1], sent[|sent| - 1];
      RepeatInPrefix(init, sent);
      DifferentInTurn(init);
      ReachedBound(init);
      assert sent == init + [last];
      LastInTurn(init, last);
    }
  }

  /** Messages that skip nothing are all different exactly when the j-th is of step j. */
  lemma InTurnIff(sent: seq<Send>)
    requires NothingSkipped(sent)
    ensures SentOnce(sent) <==> InTurn(sent)
    ensures SentOnce(sent) ==> Reached(sent) == |sent|
    ensures Reached(sent) <= |sent|
  {
    ReachedBound(sent);
    if SentOnce(sent) {
      DifferentInTurn(sent);
    }
  }

  /** Every message is of the step whose turn it is: the worker read the row when that many had gone out, and none
      has gone out since. */
  predicate SendsInTurn(p: Plan, s: State, steps: seq<Step>)
    decreases |steps|
  {
    steps == [] ||
    (&& (Sends(s, steps[0]) ==> s.workers[steps[0].w].seen.index == |s.sent|)
     && SendsInTurn(p, Next(p, s, steps[0]), steps[1..]))
  }

  lemma OutOfTurnRepeats(p: Plan, s: State, step: Step)
    requires NoneAhead(s) && SentOnce(s.sent) && Sends(s, step)
    ensures SentOnce(Next(p, s, step).sent) <==> s.workers[step.w].seen.index == |s.sent|
  {
    InTurnIff(s.sent);
    var k := s.workers[step.w].seen.index;
    var t := Next(p, s, step);
    if k < |s.sent| {
      assert t.sent[k].step == t.sent[|s.sent|].step;
    }
  }

  lemma {:induction false} SentOnceInTurn(p: Plan, s: State, steps: seq<Step>)
    requires NoneAhead(s) && SentOnce(s.sent)
    ensures SentOnce(Run(p, s, steps).sent) <==> SendsInTurn(p, s, steps)
    decreases |steps|
  {
    if steps != [] {
      var t := Next(p, s, steps[0]);
      StepNoneAhead(p, s, steps[0]);
      if Sends(s, steps[0]) {
        OutOfTurnRepeats(p, s, steps[0]);
        if !SentOnce(t.sent) {
          SentGrows(p, t, steps[1..]);
          RepeatStays(t.sent, Run(p, t, steps[1..]).sent);
        } else {
          SentOnceInTurn(p, t, steps[1..]);
        }
      } else {
        SentOnceInTurn(p, t, steps[1..]);
      }
    }
  }

  /** Over every run, overlaps, crashes and overwritten rows included: no step is skipped, and each is sent at most
      once if and only if every worker that sends one is in turn. */
  lemma SentOnceWheneverInTurn(p: Plan, steps: seq<Step>)
    requires p.delays != []
    ensures var sent := Run(p, Trigger(p), steps).sent;
            NothingSkipped(sent) && (SentOnce(sent) <==> SendsInTurn(p, Trigger(p), steps))
  {
    RunNoneAhead(p, Trigger(p), steps);
    SentOnceInTurn(p, Trigger(p), steps);
  }

  predicate AboutToSend(s: State, w: nat) {
    At(s, w, Claimed) || AtSending(s, w)
  }

  /** There are two ways for a worker that is about to send to be out of turn: it claims a row that is behind what
      has gone out, or another worker sends a step after it claimed. */
  lemma OutOfTurnIff(p: Plan, s: State, step: Step, w: nat)
    requires NoneAhead(s) && AboutToSend(Next(p, s, step), w)
    ensures var t := Next(p, s, step);
            t.workers[w].seen.index == |t.sent| <==>
              if w < |s.workers| then s.workers[w].seen.index == |s.sent| && !Sends(s, step)
              else s.row.index == |s.sent|
  {
    InTurnIff(s.sent);
  }

  /** A worker that outlives its lease is overtaken: the step it holds is sent twice, in two completed passes of
      which one does not advance the execution, although nothing fails. */
  lemma OverlapSendsTwice(p: Plan, s: State)
    requires Due(s) && !s.invoice.paid && s.row.index < |p.delays|
    ensures var w := |s.workers|;
            var claimed := Next(p, Next(p, Next(p, s, Claim), Tick(CAMPAIGN_CLAIM_LEASE)), Claim);
            var sent := Next(p, Next(p, Next(p, Next(p, claimed, ReadInvoice(w, true)), ReadInvoice(w + 1, true)),
                                     Deliver(w, true)), Deliver(w + 1, true));
            var t := Next(p, Next(p, sent, Update(w, true)), Update(w + 1, true));
            && t.passes == s.passes + 2 && t.row.index == s.row.index + 1
            && |t.sent| == |s.sent| + 2
            && t.sent[|s.sent|].step == t.sent[|s.sent| + 1].step == s.row.index
  {
  }

  /** What can reopen an execution that has ended: exactly the late write of a worker that still has a step to go
      to. */
  lemma EndedReopensIff(p: Plan, s: State, step: Step)
    requires s.row.status != Active
    ensures Next(p, s, step).row.status == Active <==>
              step.Update? && step.ok && At(s, step.w, Sent) && s.workers[step.w].seen.index + 1 < |p.delays|
  {
  }

  // ---- The invoice's own columns ----

  /** Whoever closes the execution goes on to clear the invoice's columns: no crash, no failure in between. */
  predicate RecoveriesSave(p: Plan, s: State, steps: seq<Step>)
    decreases |steps|
  {
    steps == [] ||
    (&& ((steps[0].ReadAgain? || steps[0].Clear?) ==> steps[0].ok)
     && (steps[0].Crash? && steps[0].w < |s.workers| ==> !Closing(s.workers[steps[0].w].stage))
     && RecoveriesSave(p, Next(p, s, steps[0]), steps[1..]))
  }

  /** After a recovery the columns are clear, or somebody is about to clear them. */
  predicate Clears(s: State) {
    s.row.status == Recovered ==>
      (!s.invoice.wall && !s.invoice.byCampaign) || (s.workers != [] && Closing(s.workers[|s.workers| - 1].stage))
  }

  lemma {:induction false} RunClears(p: Plan, s: State, steps: seq<Step>)
    requires Orderly(p, s) && Serial(p, s, steps) && RecoveriesSave(p, s, steps) && Clears(s)
    ensures Orderly(p, Run(p, s, steps)) && Clears(Run(p, s, steps))
    decreases |steps|
  {
    if steps != [] {
      StepOrderly(p, s, steps[0]);
      StepClears(p, s, steps[0]);
      RunClears(p, Next(p, s, steps[0]), steps[1..]);
    }
  }

  lemma StepClears(p: Plan, s: State, step: Step)
    requires Orderly(p, s) && Clears(s) && (step.Claim? || step.FindExecution? ==> Idle(s))
    requires (step.ReadAgain? || step.Clear?) ==> step.ok
    requires step.Crash? && step.w < |s.workers| ==> !Closing(s.workers[step.w].stage)
    ensures Clears(Next(p, s, step))
  {
    if Works(step) && step.w < |s.workers| && s.workers[step.w].stage != Done {
      assert step.w == |s.workers| - 1;
    }
  }

  /** While workers do not overlap, and whoever closes the execution goes on to clear the columns: once it is
      recovered and nobody is at work, the payment wall is down and the invoice is back with the scheduler. */
  lemma RecoveredTakesWallDown(p: Plan, steps: seq<Step>)
    requires p.delays != [] && Serial(p, Trigger(p), steps) && RecoveriesSave(p, Trigger(p), steps)
    ensures var s := Run(p, Trigger(p), steps);
            s.row.status == Recovered && Idle(s) ==> !s.invoice.wall && !s.invoice.byCampaign
  {
    RunClears(p, Trigger(p), steps);
  }

  /** The worker read the invoice unpaid and is about to write it back whole. */
  predicate Overwrites(p: Plan, worker: Worker) {
    || (worker.stage.Sending? && !worker.stage.inv.paid && worker.seen.index in p.walls)
    || (worker.stage.Clearing? && !worker.stage.inv.paid)
  }

  predicate NoneOverwrites(p: Plan, s: State) {
    forall w :: 0 <= w < |s.workers| ==> !Overwrites(p, s.workers[w])
  }

  lemma {:induction false} PaidWithoutOverwrites(p: Plan, s: State, steps: seq<Step>)
    requires s.invoice.paid && NoneOverwrites(p, s)
    ensures Run(p, s, steps).invoice.paid
    decreases |steps|
  {
    if steps != [] {
      StepStaysPaid(p, s, steps[0]);
      PaidWithoutOverwrites(p, Next(p, s, steps[0]), steps[1..]);
    }
  }

  lemma StepStaysPaid(p: Plan, s: State, step: Step)
    requires s.invoice.paid && NoneOverwrites(p, s)
    ensures Next(p, s, step).invoice.paid && NoneOverwrites(p, Next(p, s, step))
  {
  }

  /** A paid invoice stays paid in every continuation if and only if no worker that read it unpaid is about to raise
      the payment wall or to clear the invoice's columns. */
  lemma PaidStaysIff(p: Plan, s: State)
    requires s.invoice.paid
    ensures (forall steps :: Run(p, s, steps).invoice.paid) <==> NoneOverwrites(p, s)
  {
    if NoneOverwrites(p, s) {
      forall steps ensures Run(p, s, steps).invoice.paid {
        PaidWithoutOverwrites(p, s, steps);
      }
    } else {
      var w :| 0 <= w < |s.workers| && Overwrites(p, s.workers[w]);
      var step := if s.workers[w].stage.Sending? then Deliver(w, true) else Clear(w, true);
      RunOne(p, s, step);
      assert !Run(p, s, [step]).invoice.paid;
    }
  }

  lemma RunOne(p: Plan, s: State, step: Step)
    ensures Run(p, s, [step]) == Next(p, s, step)
  {
    assert [step][1..] == [];
  }

  /** So from the start, in any campaign whose first step raises the wall: a payment that arrives while that step is
      delivered is overwritten, although every statement succeeds. */
  lemma PaymentDuringStepIsOverwritten(p: Plan) returns (steps: seq<Step>)
    requires p.delays != [] && 0 in p.walls
    ensures !Run(p, Trigger(p), steps).invoice.paid && Pay in steps
  {
    var due := Next(p, Trigger(p), Tick(if p.delays[0] < 0 then 0 else p.delays[0]));
    var paid := Next(p, Next(p, Next(p, due, Claim), ReadInvoice(0, true)), Pay);
    var rest := [Deliver(0, true)];
    RunOne(p, paid, rest[0]);
    steps := [Tick(if p.delays[0] < 0 then 0 else p.delays[0]), Claim, ReadInvoice(0, true), Pay] + rest;
    RunFour(p, Trigger(p), steps[0], Claim, ReadInvoice(0, true), Pay, rest);
  }

  lemma RunFour(p: Plan, s: State, x1: Step, x2: Step, x3: Step, x4: Step, rest: seq<Step>)
    ensures Run(p, s, [x1, x2, x3, x4] + rest) == Run(p, Next(p, Next(p, Next(p, Next(p, s, x1), x2), x3), x4), rest)
  {
    RunTwo(p, s, x1, x2, [x3, x4] + rest);
    RunTwo(p, Next(p, Next(p, s, x1), x2), x3, x4, rest);
    assert [x1, x2, x3, x4] + rest == [x1, x2] + ([x3, x4] + rest);
  }

  lemma RunTwo(p: Plan, s: State, x1: Step, x2: Step, rest: seq<Step>)
    ensures Run(p, s, [x1, x2] + rest) == Run(p, Next(p, Next(p, s, x1), x2), rest)
  {
    RunCons(p, s, x1, [x2] + rest);
    RunCons(p, Next(p, s, x1), x2, rest);
    assert [x1, x2] + rest == [x1] + ([x2] + rest);
  }

  lemma RunCons(p: Plan, s: State, x: Step, rest: seq<Step>)
    ensures Run(p, s, [x] + rest) == Run(p, Next(p, s, x), rest)
  {
    assert ([x] + rest)[1..] == rest;
  }

  // ---- The worker's own code ----

  /** Whether the calls of a pass succeed: the reads of the campaign and the invoice, the write of the execution,
      the invoice's second read, and its write. */
  datatype Calls = Calls(ok: bool, written: bool, again: bool, saved: bool)

  function PassSteps(c: Calls): seq<Step> {
    [ReadInvoice(0, c.ok), Deliver(0, c.saved), Update(0, c.written), FindAgain(0)]
  }

  function CloseSteps(c: Calls): seq<Step> {
    [MarkRecovered(0, c.written), ReadAgain(0, c.again), Clear(0, c.saved)]
  }

  /** One claimed execution, processed without another worker in between. */
  function Alone(p: Plan, s: State, c: Calls): State {
    Run(p, s, PassSteps(c) + CloseSteps(c))
  }

  function Passed(p: Plan, s: State, c: Calls): State {
    Next(p, Next(p, s, Deliver(0, c.saved)), Update(0, c.written))
  }

  function RecoveredBy(p: Plan, s: State, c: Calls): State {
    Next(p, Next(p, Next(p, s, MarkRecovered(0, c.written)), ReadAgain(0, c.again)), Clear(0, c.saved))
  }

  predicate LoneAt(s: State, seen: Execution, stage: Stage) {
    s.workers == [Worker(seen, stage)]
  }

  lemma AloneStops(p: Plan, s: State, c: Calls, seen: Execution)
    requires LoneAt(s, seen, Done)
    ensures RecoveredBy(p, Next(p, Passed(p, s, c), FindAgain(0)), c) == s
  {
    DoneActs(p, s, Deliver(0, c.saved));
    DoneActs(p, s, Update(0, c.written));
    DoneActs(p, s, FindAgain(0));
    DoneCloses(p, s, c, seen);
  }

  lemma DoneCloses(p: Plan, s: State, c: Calls, seen: Execution)
    requires LoneAt(s, seen, Done)
    ensures RecoveredBy(p, s, c) == s
  {
    DoneActs(p, s, MarkRecovered(0, c.written));
    DoneActs(p, s, ReadAgain(0, c.again));
    DoneActs(p, s, Clear(0, c.saved));
  }

  lemma AlonePasses(p: Plan, s: State, c: Calls, seen: Execution)
    requires LoneAt(s, seen, Sending(s.invoice))
    ensures var t := Passed(p, s, c);
            && LoneAt(t, seen, Done)
            && t.row == (if c.written then Advanced(p, seen.index + 1, s.now) else s.row)
            && t.passes == s.passes + (if c.written then 1 else 0)
            && t.sent == s.sent + [Send(seen.index, s.now)]
            && t.invoice == (if seen.index in p.walls && c.saved then s.invoice.(wall := true) else s.invoice)
  {
    var sent := Next(p, s, Deliver(0, c.saved));
    assert LoneAt(sent, seen, Sent);
  }

  lemma AloneFinds(p: Plan, s: State, c: Calls, seen: Execution)
    requires LoneAt(s, seen, Finding)
    ensures var t := Next(p, Passed(p, s, c), FindAgain(0));
            && t.row == s.row && t.sent == s.sent && t.passes == s.passes && t.invoice == s.invoice
            && if s.row.status == Active then LoneAt(t, s.row, Recovering) else LoneAt(t, seen, Done)
  {
    assert Passed(p, s, c) == s;
  }

  lemma AloneRecovers(p: Plan, s: State, c: Calls)
    requires LoneAt(s, s.row, Recovering)
    ensures var t := RecoveredBy(p, s, c);
            && t.row == (if c.written then Execution(s.row.index, Recovered, None) else s.row)
            && t.sent == s.sent && t.passes == s.passes
            && t.invoice == if c.written && c.again && c.saved then s.invoice.(wall := false, byCampaign := false)
                            else s.invoice
  {
    var closed := Next(p, s, MarkRecovered(0, c.written));
    if c.written {
      assert LoneAt(closed, s.row, Closed);
    } else {
      assert LoneAt(closed, s.row, Done);
      DoneActs(p, closed, ReadAgain(0, c.again));
      DoneActs(p, closed, Clear(0, c.saved));
    }
  }

  lemma AloneMarks(p: Plan, s: State, c: Calls, seen: Execution)
    requires LoneAt(s, seen, Finding)
    ensures var t := RecoveredBy(p, Next(p, Passed(p, s, c), FindAgain(0)), c);
            var closes := s.row.status == Active && c.written;
            && t.row == (if closes then Execution(s.row.index, Recovered, None) else s.row)
            && t.sent == s.sent && t.passes == s.passes
            && t.invoice == if closes && c.again && c.saved then s.invoice.(wall := false, byCampaign := false)
                            else s.invoice
  {
    AloneFinds(p, s, c, seen);
    var found := Next(p, Passed(p, s, c), FindAgain(0));
    if s.row.status == Active {
      AloneRecovers(p, found, c);
    } else {
      DoneCloses(p, found, c, seen);
    }
  }

  lemma AloneNests(p: Plan, s: State, c: Calls)
    ensures Alone(p, s, c)
         == RecoveredBy(p, Next(p, Passed(p, Next(p, s, ReadInvoice(0, c.ok)), c), FindAgain(0)), c)
  {
    RunFour(p, s, ReadInvoice(0, c.ok), Deliver(0, c.saved), Update(0, c.written), FindAgain(0), CloseSteps(c));
    RunThree(p, Next(p, Passed(p, Next(p, s, ReadInvoice(0, c.ok)), c), FindAgain(0)),
             MarkRecovered(0, c.written), ReadAgain(0, c.again), Clear(0, c.saved));
  }

  lemma RunThree(p: Plan, s: State, x1: Step, x2: Step, x3: Step)
    ensures Run(p, s, [x1, x2, x3]) == Next(p, Next(p, Next(p, s, x1), x2), x3)
  {
    RunCons(p, s, x1, [x2, x3]);
    RunCons(p, Next(p, s, x1), x2, [x3]);
    RunOne(p, Next(p, Next(p, s, x1), x2), x3);
    assert [x1, x2, x3] == [x1] + [x2, x3] && [x2, x3] == [x2] + [x3];
  }

  /** What a pass on its own comes to, when the invoice is read unpaid, ... */
  lemma AloneUnpaid(p: Plan, s: State, c: Calls, seen: Execution)
    requires LoneAt(s, seen, Claimed) && c.ok && seen.index < |p.delays| && !s.invoice.paid
    ensures var t := Alone(p, s, c);
            && t.row == (if c.written then Advanced(p, seen.index + 1, s.now) else s.row)
            && t.passes == s.passes + (if c.written then 1 else 0)
            && t.sent == s.sent + [Send(seen.index, s.now)]
            && t.invoice == (if seen.index in p.walls && c.saved then s.invoice.(wall := true) else s.invoice)
  {
    AloneNests(p, s, c);
    var read := Next(p, s, ReadInvoice(0, true));
    AlonePasses(p, read, c, seen);
    DoneActs(p, Passed(p, read, c), FindAgain(0));
    DoneCloses(p, Passed(p, read, c), c, seen);
  }

  /** ... when it is read paid, ... */
  lemma AlonePaid(p: Plan, s: State, c: Calls, seen: Execution)
    requires LoneAt(s, seen, Claimed) && c.ok && seen.index < |p.delays| && s.invoice.paid
    ensures var t := Alone(p, s, c);
            var closes := s.row.status == Active && c.written;
            && t.row == (if closes then Execution(s.row.index, Recovered, None) else s.row)
            && t.sent == s.sent && t.passes == s.passes
            && t.invoice == if closes && c.again && c.saved then s.invoice.(wall := false, byCampaign := false)
                            else s.invoice
  {
    AloneNests(p, s, c);
    AloneMarks(p, Next(p, s, ReadInvoice(0, true)), c, seen);
  }

  /** ... and when it is not read. */
  lemma AloneUnread(p: Plan, s: State, c: Calls, seen: Execution)
    requires LoneAt(s, seen, Claimed) && (!c.ok || seen.index >= |p.delays|)
    ensures var t := Alone(p, s, c);
            && t.row == (if c.ok then Execution(seen.index, Exhausted, None) else s.row)
            && t.sent == s.sent && t.passes == s.passes && t.invoice == s.invoice
  {
    AloneNests(p, s, c);
    AloneStops(p, Next(p, s, ReadInvoice(0, c.ok)), c, seen);
  }

  class ExecutionStore {
    var row: Execution
    var invoice: Invoice
    var sent: seq<Send>
    var passes: nat

    /** processExecution: the same statements as a worker of the protocol that meets no other. */
    method ProcessExecution(p: Plan, claimed: Execution, now: int, c: Calls)
      modifies this
      ensures var s := State(old(row), [Worker(claimed, Claimed)], old(sent), old(passes), old(invoice), now);
              var t := Alone(p, s, c);
              row == t.row && sent == t.sent && passes == t.passes && invoice == t.invoice
    {
      ghost var s := State(row, [Worker(claimed, Claimed)], sent, passes, invoice, now);
      if !c.ok {
        AloneUnread(p, s, c, claimed);
        return;
      }
      var exec := claimed;
      if exec.index >= |p.delays| {
        AloneUnread(p, s, c, claimed);
        row := exec.(status := Exhausted, nextStepAt := None);
        return;
      }
      if invoice.paid {
        AlonePaid(p, s, c, claimed);
        MarkExecutionRecovered(c);
        return;
      }
      AloneUnpaid(p, s, c, claimed);
      if exec.index in p.walls && c.saved {
        invoice := invoice.(wall := true);
      }
      sent := sent + [Send(exec.index, now)];
      exec := exec.(index := exec.index + 1);
      if exec.index < |p.delays| {
        var nextAt := p.startedAt + p.delays[exec.index];
        if nextAt < now {
          nextAt := now;
        }
        exec := exec.(status := Active, nextStepAt := Some(nextAt));
      } else {
        exec := exec.(status := Exhausted, nextStepAt := None);
      }
      if c.written {
        row := exec;
        passes := passes + 1;
      }
    }

    /** MarkRecovered: the active execution is closed, and then the invoice's own columns are cleared. */
    method MarkExecutionRecovered(c: Calls)
      modifies this`row, this`invoice
      ensures var closes := old(row).status == Active && c.written;
              && row == (if closes then Execution(old(row).index, Recovered, None) else old(row))
              && invoice == (if closes && c.again && c.saved then old(invoice).(wall := false, byCampaign := false)
                  else old(invoice))
    {
      if row.status != Active || !c.written {
        return;
      }
      row := row.(status := Recovered, nextStepAt := None);
      if c.again && (invoice.wall || invoice.byCampaign) && c.saved {
        invoice := invoice.(wall := false, byCampaign := false);
      }
    }
  }
}

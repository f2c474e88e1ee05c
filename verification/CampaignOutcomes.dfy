/**
  What single statements of a campaign worker do to the execution and to the
  invoice, column by column (internal/service/dunning_campaign.go:60-291;
  internal/adapter/db/invoice_repository.go:371-402).
 */
module CampaignOutcomes {
  import opened Campaign
  import opened Options

  /** A triggered execution waits for its first step, at that step's delay from the start; the invoice is the
      campaign's, and nothing was sent. */
  lemma TriggerIs(p: Plan)
    requires p.delays != []
    ensures var s := Trigger(p);
            && s.row.index == 0 && s.row.status == Active && s.row.nextStepAt == Some(p.startedAt + p.delays[0])
            && s.now == p.startedAt && s.workers == [] && s.sent == [] && s.passes == 0
            && !s.invoice.paid && !s.invoice.paused && !s.invoice.wall && s.invoice.byCampaign
  {
  }

  // ---- The operator's pause ----

  /** While the invoice is paused nobody claims its execution ... */
  lemma {:induction false} PauseKeepsOut(p: Plan, s: State, steps: seq<Step>)
    requires s.invoice.paused && Pause(false) !in steps && FindExecution !in steps
    ensures Run(p, s, steps).invoice.paused && |Run(p, s, steps).workers| == |s.workers|
    decreases |steps|
  {
    if steps != [] {
      assert steps[0] != Pause(false) && steps[0] != FindExecution;
      OnlyPauseWritesPause(p, s, steps[0]);
      PauseKeepsOut(p, Next(p, s, steps[0]), steps[1..]);
    }
  }

  /** ... and no other step writes the pause: the updates of the whole row keep the column as it is. */
  lemma OnlyPauseWritesPause(p: Plan, s: State, step: Step)
    ensures Next(p, s, step).invoice.paused == if step.Pause? then step.on else s.invoice.paused
  {
  }

  lemma UnpauseRestores(p: Plan, s: State)
    requires !s.invoice.paused
    ensures Next(p, Next(p, s, Pause(true)), Pause(false)) == s
  {
  }

  // ---- A payment ----

  /** A payment marks the invoice paid and touches nothing else. */
  lemma PaymentIs(p: Plan, s: State)
    ensures Next(p, s, Pay) == s.(invoice := Invoice(true, s.invoice.paused, s.invoice.wall, s.invoice.byCampaign))
  {
  }

  // ---- A pass ----

  /** Only the one worker moved, and it still works on the row it read. */
  predicate OnlyWorker(s: State, t: State, w: nat) {
    && w < |s.workers| == |t.workers| && t.now == s.now && t.workers[w].seen == s.workers[w].seen
    && forall v :: 0 <= v < |s.workers| && v != w ==> t.workers[v] == s.workers[v]
  }

  /** A paid invoice is not dunned: the worker that reads it paid sends nothing, and goes on to close the execution.
      One with no step left is closed instead, and any other invoice gets the step. */
  lemma ReadIs(p: Plan, s: State, w: nat, ok: bool)
    requires At(s, w, Claimed)
    ensures var t, index := Next(p, s, ReadInvoice(w, ok)), s.workers[w].seen.index;
            && OnlyWorker(s, t, w) && t.sent == s.sent && t.passes == s.passes && t.invoice == s.invoice
            && (!ok ==> t.row == s.row && t.workers[w].stage == Done)
            && (ok && index >= |p.delays| ==> t.row == Execution(index, Exhausted, None) && t.workers[w].stage == Done)
            && (ok && index < |p.delays| ==>
                  t.row == s.row && t.workers[w].stage == if s.invoice.paid then Finding else Sending(s.invoice))
  {
  }

  /** A delivery sends the step of the row that was read; a wall step writes back, with the wall up, the invoice as it
      was read, except for the pause. */
  lemma DeliverIs(p: Plan, s: State, w: nat, saved: bool)
    requires w < |s.workers| && s.workers[w].stage.Sending?
    ensures var t, me := Next(p, s, Deliver(w, saved)), s.workers[w];
            var wall := me.seen.index in p.walls && saved;
            && OnlyWorker(s, t, w) && t.workers[w].stage == Sent && t.row == s.row && t.passes == s.passes
            && t.sent == s.sent + [Send(me.seen.index, s.now)]
            && (!wall ==> t.invoice == s.invoice)
            && (wall ==> t.invoice == Invoice(me.stage.inv.paid, s.invoice.paused, true, me.stage.inv.byCampaign))
  {
  }

  /** The update moves on to the next step, due at its delay from the start or at once when that has passed, and
      after the last one the execution is exhausted. */
  lemma UpdateIs(p: Plan, s: State, w: nat, ok: bool)
    requires At(s, w, Sent)
    ensures var t, next := Next(p, s, Update(w, ok)), s.workers[w].seen.index + 1;
            && OnlyWorker(s, t, w) && t.workers[w].stage == Done && t.sent == s.sent && t.invoice == s.invoice
            && t.passes == s.passes + (if ok then 1 else 0)
            && (!ok ==> t.row == s.row)
            && (ok ==> t.row.index == next && (t.row.status == Active <==> next < |p.delays|)
                       && (t.row.status == Exhausted <==> next >= |p.delays|))
            && (ok && next < |p.delays| ==> t.row.nextStepAt.Some? && t.row.nextStepAt.value >= s.now
                                            && t.row.nextStepAt.value >= p.startedAt + p.delays[next]
                                            && t.row.nextStepAt.value in {s.now, p.startedAt + p.delays[next]})
            && (ok && next >= |p.delays| ==> t.row.nextStepAt.None?)
  {
  }

  /** A crash ends the work and writes nothing, and a worker that is done does nothing more. */
  lemma CrashIs(p: Plan, s: State, w: nat)
    requires w < |s.workers|
    ensures var t := Next(p, s, Crash(w));
            && OnlyWorker(s, t, w) && t.workers[w].stage == Done
            && t == s.(workers := t.workers)
  {
  }

  lemma DoneIsOver(p: Plan, s: State, step: Step)
    requires Works(step) && (step.w < |s.workers| ==> s.workers[step.w].stage == Done)
    ensures Next(p, s, step) == s
  {
    if step.w < |s.workers| {
      assert s.workers[step.w := s.workers[step.w]] == s.workers;
    }
  }

  // ---- Recovery ----

  /** Closing an active execution, when every call succeeds, leaves it recovered at its index with nothing due, and
      the invoice with its wall down and back with the scheduler; whether it is paid or paused does not change.  An
      execution that has ended is left alone. */
  lemma RecoveryIs(p: Plan, s: State)
    ensures var w := |s.workers|;
            var t := Run(p, s, [FindExecution, MarkRecovered(w, true), ReadAgain(w, true), Clear(w, true)]);
            && (s.row.status != Active ==> t == s)
            && (s.row.status == Active ==>
                  && t.row == Execution(s.row.index, Recovered, None)
                  && t.invoice == Invoice(s.invoice.paid, s.invoice.paused, false, false)
                  && t.workers == s.workers + [Worker(s.row, Done)]
                  && t.sent == s.sent && t.passes == s.passes && t.now == s.now)
  {
    var w := |s.workers|;
    var found := Next(p, s, FindExecution);
    RunFour(p, s, FindExecution, MarkRecovered(w, true), ReadAgain(w, true), Clear(w, true), []);
    assert [FindExecution, MarkRecovered(w, true), ReadAgain(w, true), Clear(w, true)] + []
        == [FindExecution, MarkRecovered(w, true), ReadAgain(w, true), Clear(w, true)];
    if s.row.status == Active {
      var marked := Next(p, found, MarkRecovered(w, true));
      assert marked.workers == s.workers + [Worker(s.row, Closed)];
      var read := Next(p, marked, ReadAgain(w, true));
      var cleared := Next(p, read, Clear(w, true));
      assert cleared.workers == s.workers + [Worker(s.row, Done)];
    }
  }
}

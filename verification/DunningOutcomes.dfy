/**
  What a dunning pass does to the invoice, column by column, and that a tick of
  the scheduler does to each invoice what one undisturbed pass does
  (internal/scheduler/dunning.go:148-320;
  internal/adapter/db/invoice_repository.go:816-855, 1283-1294, 1512-1523).
 */
module DunningOutcomes {
  import opened Dunning
  import opened Options

  // ---- Claims ----

  /** A claim takes the invoice exactly when it is open or past due, overdue, not waiting for a retry or another
      lease, the scheduler's, and not paused; it opens a pass and keeps other claims out for a lease. */
  lemma ClaimIff(c: Config, s: State)
    requires c.retryDays != []
    ensures var t, r := Next(c, s, Claim), s.row;
            && (|t.passes| != |s.passes| <==>
                  && (r.status == Open || r.status == PastDue) && r.dueDate < s.now && r.managedBy == ByScheduler
                  && !r.paused && (r.nextRetryAt.Some? ==> r.nextRetryAt.value <= s.now))
            && (|t.passes| == |s.passes| ==> t == s)
            && (|t.passes| != |s.passes| ==>
                  && t.row == r.(nextRetryAt := Some(s.now + DUNNING_CLAIM_LEASE))
                  && t.passes == s.passes + [Pass(t.row, s.now, Claimed)] && t.now == s.now
                  && t.completed == s.completed)
  {
  }

  /** An operator's pause keeps every instance out until it is taken back ... */
  lemma {:induction false} PauseKeepsOut(c: Config, s: State, steps: seq<Step>)
    requires c.retryDays != [] && s.row.paused && Pause(false) !in steps
    ensures Run(c, s, steps).row.paused && |Run(c, s, steps).passes| == |s.passes|
    decreases |steps|
  {
    if steps != [] {
      assert steps[0] != Pause(false);
      PauseKeepsOut(c, Next(c, s, steps[0]), steps[1..]);
    }
  }

  /** ... and nothing else comes of it. */
  lemma UnpauseRestores(c: Config, s: State)
    requires c.retryDays != [] && !s.row.paused
    ensures Next(c, s, Pause(true)).row.paused && Next(c, Next(c, s, Pause(true)), Pause(false)) == s
  {
  }

  /** The invoice of a pass that crashed is claimable again exactly when the lease has run out. */
  lemma CrashedPassComesBack(c: Config, r: Row, now: int, later: int)
    requires c.retryDays != [] && Claimable(r, now) && later >= now
    ensures var s := Run(c, Overdue(r, now), [Claim, Crash(0), Tick(later - now)]);
            Claimable(s.row, s.now) <==> later >= now + DUNNING_CLAIM_LEASE
  {
    RunThree(c, Overdue(r, now), Claim, Crash(0), Tick(later - now));
  }

  lemma RunThree(c: Config, s: State, x: Step, y: Step, z: Step)
    requires c.retryDays != []
    ensures Run(c, s, [x, y, z]) == Next(c, Next(c, Next(c, s, x), y), z)
  {
    RunOne(c, Next(c, Next(c, s, x), y), z);
    assert [x, y, z][1..] == [y, z] && [y, z][1..] == [z];
  }

  // ---- The end of a pass ----

  predicate OnlyPass(s: State, t: State, w: nat) {
    && w < |s.passes| == |t.passes| && t.now == s.now
    && t.passes[w].seen == s.passes[w].seen && t.passes[w].claimedAt == s.passes[w].claimedAt
    && forall v :: 0 <= v < |s.passes| && v != w ==> t.passes[v] == s.passes[v]
  }

  /** A pass over an invoice whose payment is settling ends without a write; otherwise it gives the invoice up exactly
      when it is overdue by the configured days or out of retries, and goes on to the e-mail if not. */
  lemma DecideIs(c: Config, s: State, w: nat, inFlight: bool)
    requires c.retryDays != [] && w < |s.passes| && s.passes[w].stage == Claimed
    ensures var t, seen := Next(c, s, Decide(w, inFlight)), s.passes[w].seen;
            && OnlyPass(s, t, w) && t.row == s.row && t.completed == s.completed
            && (inFlight ==> t.passes[w].stage == Done)
            && (!inFlight ==>
                  t.passes[w].stage == if s.now - seen.dueDate >= c.cancelAfterDays * DAY
                                          || seen.retryCount >= c.maxRetries then GivingUp else Emailed(s.now))
  {
  }

  /** Giving up marks the invoice uncollectible and clears its next retry, if the write goes through. */
  lemma GiveUpIs(c: Config, s: State, w: nat, ok: bool)
    requires c.retryDays != [] && w < |s.passes| && s.passes[w].stage == GivingUp
    ensures var t := Next(c, s, GiveUp(w, ok));
            && OnlyPass(s, t, w) && t.passes[w].stage == Done
            && t.completed == s.completed + (if ok then 1 else 0)
            && (!ok ==> t.row == s.row)
            && (ok ==> t.row == Row(Uncollectible, s.row.dueDate, None, s.row.retryCount, s.row.managedBy,
                                    s.row.mandate, s.row.paused))
  {
  }

  /** Rescheduling counts one retry more than the pass had read, sets the next one by that count's interval from when
      it was chosen, and hands the invoice to the retry worker unless it is a mandate's. */
  lemma RescheduleIs(c: Config, s: State, w: nat, ok: bool)
    requires c.retryDays != [] && w < |s.passes| && s.passes[w].stage.Emailed?
    ensures var t, seen := Next(c, s, Reschedule(w, ok)), s.passes[w].seen;
            var days := c.retryDays[if seen.retryCount < |c.retryDays| then seen.retryCount else |c.retryDays| - 1];
            && OnlyPass(s, t, w) && t.passes[w].stage == Done
            && t.completed == s.completed + (if ok then 1 else 0)
            && (!ok ==> t.row == s.row)
            && (ok ==> t.row == Row(PastDue, s.row.dueDate, Some(s.passes[w].stage.at + days * DAY),
                                    seen.retryCount + 1, if seen.mandate then ByScheduler else ByWorker,
                                    s.row.mandate, s.row.paused))
  {
  }

  /** A crash ends the pass and writes nothing. */
  lemma CrashIs(c: Config, s: State, w: nat)
    requires c.retryDays != [] && w < |s.passes|
    ensures var t := Next(c, s, Crash(w));
            OnlyPass(s, t, w) && t.passes[w].stage == Done && t.row == s.row && t.completed == s.completed
  {
  }

  /** A pass that is over does nothing more. */
  lemma DoneIsOver(c: Config, s: State, step: Step)
    requires c.retryDays != [] && (step.Decide? || step.GiveUp? || step.Reschedule? || step.Crash?)
    requires step.w < |s.passes| ==> s.passes[step.w].stage == Done
    ensures Next(c, s, step) == s
  {
    if step.w < |s.passes| {
      assert s.passes[step.w := s.passes[step.w]] == s.passes;
    }
  }

  // ---- A tick ----

  /** What a tick makes of a claimable invoice is what one pass with succeeding writes makes of it. */
  lemma TickIsOnePass(c: Config, r: Row, now: int, inFlight: bool)
    requires c.retryDays != [] && Claimable(r, now)
    ensures var end := if GivesUp(c, r, now) then GiveUp(0, true) else Reschedule(0, true);
            Run(c, Overdue(r, now), [Claim, Decide(0, inFlight), end]).row
            == Processed(c, Leased(r, now), now, inFlight)
  {
    RunThree(c, Overdue(r, now), Claim, Decide(0, inFlight),
        if GivesUp(c, r, now) then GiveUp(0, true) else Reschedule(0, true));
  }
}

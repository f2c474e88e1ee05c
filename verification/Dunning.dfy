/**
  The dunning scheduler: overdue invoices leased by scheduler instances that
  share no working lock (internal/scheduler/dunning.go:148-312;
  internal/adapter/db/invoice_repository.go:816-855, 1283-1294, 1512-1523).
  Times are minutes.
 */
module Dunning {
  import opened Options
  import G = Grouping

  const DUNNING_CLAIM_LEASE := 15
  const DAY := 1440

  datatype Status = Open | PastDue | Uncollectible | Paid
  datatype Manager = ByScheduler | ByWorker

  datatype Config = Config(maxRetries: nat, cancelAfterDays: int, retryDays: seq<int>)

  datatype Row = Row(status: Status, dueDate: int, nextRetryAt: Option<int>, retryCount: nat, managedBy: Manager,
                     mandate: bool, paused: bool)

  function Least(x: int, y: int): int {
    if x < y then x else y
  }

  /** getNextRetryDays: the configured intervals in turn, then the last one for good. */
  function NextRetryDays(c: Config, retryCount: nat): (days: int)
    requires c.retryDays != []
    ensures days == c.retryDays[Least(retryCount, |c.retryDays| - 1)]
  {
    if retryCount < |c.retryDays| then c.retryDays[retryCount] else c.retryDays[|c.retryDays| - 1]
  }

  predicate Claimable(r: Row, now: int) {
    && r.status in {Open, PastDue} && r.dueDate < now
    && (r.nextRetryAt.None? || r.nextRetryAt.value <= now)
    && r.managedBy == ByScheduler && !r.paused
  }

  function Leased(r: Row, now: int): Row {
    r.(nextRetryAt := Some(now + DUNNING_CLAIM_LEASE))
  }

  /** Whether a pass gives the invoice up: too long overdue, or out of retries. */
  predicate GivesUp(c: Config, seen: Row, now: int) {
    (now - seen.dueDate) / DAY >= c.cancelAfterDays || seen.retryCount >= c.maxRetries
  }

  function MarkedUncollectible(r: Row): Row {
    r.(status := Uncollectible, nextRetryAt := None)
  }

  /** The next retry counts from the moment `at` it was chosen, before the e-mail is sent. */
  function Rescheduled(c: Config, r: Row, seen: Row, at: int): Row
    requires c.retryDays != []
  {
    r.(status := PastDue, nextRetryAt := Some(at + NextRetryDays(c, seen.retryCount) * DAY),
       retryCount := seen.retryCount + 1, managedBy := if seen.mandate then ByScheduler else ByWorker)
  }

  // ---- Instances racing for one invoice ----

  datatype Stage = Claimed | GivingUp | Emailed(at: int) | Done

  /** One instance's pass over the invoice: the row it claimed, and when. */
  datatype Pass = Pass(seen: Row, claimedAt: int, stage: Stage)

  datatype State = State(row: Row, passes: seq<Pass>, completed: nat, now: int)

  datatype Step =
    | Tick(minutes: nat)
    | Claim
    | Decide(w: nat, inFlight: bool)
    | GiveUp(w: nat, ok: bool)
    | Reschedule(w: nat, ok: bool)
    | Crash(w: nat)
    | Pay
    | Pause(on: bool)

  predicate At(s: State, w: nat) {
    w < |s.passes| && s.passes[w].stage != Done
  }

  function Moved(s: State, w: nat, stage: Stage): seq<Pass>
    requires w < |s.passes|
  {
    s.passes[w := s.passes[w].(stage := stage)]
  }

  function Next(c: Config, s: State, step: Step): State
    requires c.retryDays != []
  {
    match step
    case Tick(minutes) => s.(now := s.now + minutes)
    case Pay => s.(row := s.row.(status := Paid))
    case Pause(on) => s.(row := s.row.(paused := on))
    case Claim =>
      if !Claimable(s.row, s.now) then s
      else s.(row := Leased(s.row, s.now), passes := s.passes + [Pass(Leased(s.row, s.now), s.now, Claimed)])
    case Decide(w, inFlight) =>
      if !At(s, w) || s.passes[w].stage != Claimed then s
      else s.(passes := Moved(s, w,
                if inFlight then Done else if GivesUp(c, s.passes[w].seen, s.now) then GivingUp else Emailed(s.now)))
    case GiveUp(w, ok) =>
      if !At(s, w) || s.passes[w].stage != GivingUp then s
      else s.(passes := Moved(s, w, Done), row := if ok then MarkedUncollectible(s.row) else s.row,
              completed := if ok then s.completed + 1 else s.completed)
    case Reschedule(w, ok) =>
      if !At(s, w) || !s.passes[w].stage.Emailed? then s
      else s.(passes := Moved(s, w, Done),
              row := if ok then Rescheduled(c, s.row, s.passes[w].seen, s.passes[w].stage.at) else s.row,
              completed := if ok then s.completed + 1 else s.completed)
    case Crash(w) => if w >= |s.passes| then s else s.(passes := Moved(s, w, Done))
  }

  function Run(c: Config, s: State, steps: seq<Step>): State
    requires c.retryDays != []
    decreases |steps|
  {
    if steps == [] then s else Run(c, Next(c, s, steps[0]), steps[1..])
  }

  function Overdue(r: Row, now: int): State {
    State(r, [], 0, now)
  }

  // ---- One instance per lease ----

  /** While a pass is open, the scheduler cannot claim the invoice before the pass's lease ends. */
  predicate Guarded(r: Row, claimedAt: int) {
    || r.status in {Uncollectible, Paid} || r.managedBy == ByWorker
    || (r.nextRetryAt.Some? && r.nextRetryAt.value >= claimedAt + DUNNING_CLAIM_LEASE)
  }

  ghost predicate Leases(s: State) {
    && (forall w :: 0 <= w < |s.passes| ==> s.passes[w].claimedAt <= s.now)
    && (forall w :: 0 <= w < |s.passes| && s.passes[w].stage != Done ==> Guarded(s.row, s.passes[w].claimedAt))
    && (forall v, w :: 0 <= v < w < |s.passes| && s.passes[v].stage != Done && s.passes[w].stage != Done ==>
          s.passes[w].claimedAt >= s.passes[v].claimedAt + DUNNING_CLAIM_LEASE)
  }

  /** The step writes a next retry. */
  predicate Reschedules(s: State, step: Step) {
    step.Reschedule? && At(s, step.w) && s.passes[step.w].stage.Emailed? && step.ok
  }

  /** The next retry that the step writes. */
  function Chosen(c: Config, s: State, step: Step): int
    requires c.retryDays != [] && Reschedules(s, step)
  {
    s.passes[step.w].stage.at + NextRetryDays(c, s.passes[step.w].seen.retryCount) * DAY
  }

  /** A retry written for an invoice that stays with the scheduler is no earlier than the end of any other open
      lease. */
  predicate Outlasts(c: Config, s: State, step: Step)
    requires c.retryDays != []
  {
    Reschedules(s, step) && s.passes[step.w].seen.mandate ==>
      forall v :: 0 <= v < |s.passes| && v != step.w && s.passes[v].stage != Done ==>
        Chosen(c, s, step) >= s.passes[v].claimedAt + DUNNING_CLAIM_LEASE
  }

  lemma RescheduleLeasesIff(c: Config, s: State, step: Step)
    requires c.retryDays != [] && Leases(s) && Reschedules(s, step)
    ensures Leases(Next(c, s, step)) <==> Outlasts(c, s, step)
  {
    var t := Next(c, s, step);
    assert forall v :: 0 <= v < |s.passes| && v != step.w ==> t.passes[v] == s.passes[v];
    if !Outlasts(c, s, step) {
      var v :| 0 <= v < |s.passes| && v != step.w && s.passes[v].stage != Done
               && Chosen(c, s, step) < s.passes[v].claimedAt + DUNNING_CLAIM_LEASE;
      assert t.passes[v].stage != Done && !Guarded(t.row, t.passes[v].claimedAt);
    }
  }

  lemma OtherLeases(c: Config, s: State, step: Step)
    requires c.retryDays != [] && Leases(s) && !Reschedules(s, step)
    ensures Leases(Next(c, s, step))
  {
  }

  predicate LeasesOutlasted(c: Config, s: State, steps: seq<Step>)
    requires c.retryDays != []
    decreases |steps|
  {
    steps == [] || (Outlasts(c, s, steps[0]) && LeasesOutlasted(c, Next(c, s, steps[0]), steps[1..]))
  }

  ghost predicate LeasesHold(c: Config, s: State, steps: seq<Step>)
    requires c.retryDays != []
    decreases |steps|
  {
    Leases(s) && (steps == [] || LeasesHold(c, Next(c, s, steps[0]), steps[1..]))
  }

  /** However many instances sweep without a lock, crash, stall or come back late: throughout a run no open pass can
      be overtaken before its lease ends if and only if every retry that is written outlasts the other open leases. */
  lemma {:induction false} LeasesHoldIff(c: Config, s: State, steps: seq<Step>)
    requires c.retryDays != [] && Leases(s)
    ensures LeasesHold(c, s, steps) <==> LeasesOutlasted(c, s, steps)
    decreases |steps|
  {
    if steps != [] {
      if Reschedules(s, steps[0]) {
        RescheduleLeasesIff(c, s, steps[0]);
      } else {
        OtherLeases(c, s, steps[0]);
      }
      if Leases(Next(c, s, steps[0])) {
        LeasesHoldIff(c, Next(c, s, steps[0]), steps[1..]);
      }
    }
  }

  lemma {:induction false} LeasesAtEnd(c: Config, s: State, steps: seq<Step>)
    requires c.retryDays != [] && LeasesHold(c, s, steps)
    ensures Leases(Run(c, s, steps))
    decreases |steps|
  {
    if steps != [] {
      LeasesAtEnd(c, Next(c, s, steps[0]), steps[1..]);
    }
  }

  /** Then two instances are in the middle of the same invoice only if the later one claimed it after the earlier
      one's lease had run out. */
  lemma OneInstancePerLease(c: Config, r: Row, start: int, steps: seq<Step>, v: nat, w: nat)
    requires c.retryDays != [] && LeasesOutlasted(c, Overdue(r, start), steps)
    requires var s := Run(c, Overdue(r, start), steps); v < w && At(s, v) && At(s, w)
    ensures var ps := Run(c, Overdue(r, start), steps).passes;
            ps[w].claimedAt >= ps[v].claimedAt + DUNNING_CLAIM_LEASE
  {
    LeasesHoldIff(c, Overdue(r, start), steps);
    LeasesAtEnd(c, Overdue(r, start), steps);
  }

  /** Every retry is written while at least a lease is left until it. */
  predicate Prompt(c: Config, s: State, steps: seq<Step>)
    requires c.retryDays != []
    decreases |steps|
  {
    steps == [] ||
    (&& (Reschedules(s, steps[0]) ==> s.now + DUNNING_CLAIM_LEASE <= Chosen(c, s, steps[0]))
     && Prompt(c, Next(c, s, steps[0]), steps[1..]))
  }

  lemma {:induction false} PromptOutlasts(c: Config, s: State, steps: seq<Step>)
    requires c.retryDays != [] && Leases(s) && Prompt(c, s, steps)
    ensures LeasesOutlasted(c, s, steps)
    decreases |steps|
  {
    if steps != [] {
      if Reschedules(s, steps[0]) {
        RescheduleLeasesIff(c, s, steps[0]);
      } else {
        OtherLeases(c, s, steps[0]);
      }
      PromptOutlasts(c, Next(c, s, steps[0]), steps[1..]);
    }
  }

  /** It is enough that no instance takes as long as the retry interval, less a lease, between choosing the next
      retry and writing it: with the intervals the program sets, two days less a quarter of an hour. */
  lemma PromptInstancesKeepLeases(c: Config, r: Row, start: int, steps: seq<Step>)
    requires c.retryDays != [] && Prompt(c, Overdue(r, start), steps)
    ensures LeasesHold(c, Overdue(r, start), steps)
  {
    PromptOutlasts(c, Overdue(r, start), steps);
    LeasesHoldIff(c, Overdue(r, start), steps);
  }

  /** An instance that takes the whole interval to write its retry voids the next one's lease: two others then hold
      the invoice from the same moment on, whatever the intervals are. */
  lemma StalledInstanceVoidsLease(c: Config, r: Row, now: int)
    requires c.retryDays != [] && Claimable(r, now) && r.mandate && !GivesUp(c, r, now)
    requires NextRetryDays(c, r.retryCount) >= 1
    ensures var s := Next(c, Next(c, Overdue(r, now), Claim), Decide(0, false));
            var late := Next(c, Next(c, s, Tick(NextRetryDays(c, r.retryCount) * DAY)), Claim);
            var t := Next(c, Next(c, late, Reschedule(0, true)), Claim);
            && At(t, 1) && At(t, 2) && t.passes[1].claimedAt == t.passes[2].claimedAt
            && !Outlasts(c, late, Reschedule(0, true))
  {
    var s := Next(c, Next(c, Overdue(r, now), Claim), Decide(0, false));
    var late := Next(c, Next(c, s, Tick(NextRetryDays(c, r.retryCount) * DAY)), Claim);
    assert late.passes[1].stage == Claimed && late.passes[1].claimedAt == late.now;
  }

  // ---- Retries ----

  ghost predicate Bounded(c: Config, s: State) {
    && s.row.retryCount <= c.maxRetries
    && (s.row.mandate ==> s.row.managedBy == ByScheduler)
    && (forall w :: 0 <= w < |s.passes| ==>
          && s.passes[w].seen.mandate == s.row.mandate
          && (s.passes[w].stage.Emailed? ==> s.passes[w].seen.retryCount < c.maxRetries))
  }

  lemma {:induction false} RunBounded(c: Config, s: State, steps: seq<Step>)
    requires c.retryDays != [] && Bounded(c, s)
    ensures Bounded(c, Run(c, s, steps)) && Run(c, s, steps).row.mandate == s.row.mandate
    decreases |steps|
  {
    if steps != [] {
      assert Bounded(c, Next(c, s, steps[0]));
      RunBounded(c, Next(c, s, steps[0]), steps[1..]);
    }
  }

  /** In every reachable state, overlapping instances included, the retry count never passes the maximum and a mandate
      invoice stays with the scheduler. */
  lemma RetriesBounded(c: Config, r: Row, start: int, steps: seq<Step>)
    requires c.retryDays != [] && r.retryCount <= c.maxRetries && (r.mandate ==> r.managedBy == ByScheduler)
    ensures var row := Run(c, Overdue(r, start), steps).row;
            row.retryCount <= c.maxRetries && row.mandate == r.mandate && (row.mandate ==> row.managedBy == ByScheduler)
  {
    RunBounded(c, Overdue(r, start), steps);
  }

  predicate Idle(s: State) {
    forall w :: 0 <= w < |s.passes| ==> s.passes[w].stage == Done
  }

  /** A pass ends before the next begins, and before a payment arrives. */
  predicate Serial(c: Config, s: State, steps: seq<Step>)
    requires c.retryDays != []
    decreases |steps|
  {
    steps == [] ||
    ((steps[0].Claim? || steps[0].Pay? ==> Idle(s)) && Serial(c, Next(c, s, steps[0]), steps[1..]))
  }

  /** Retries still to come: each completed pass takes one, and the last gives the invoice up. */
  function Remaining(c: Config, row: Row): int {
    if row.status in {Uncollectible, Paid} then 0 else c.maxRetries + 1 - row.retryCount
  }

  ghost predicate Alone(c: Config, s: State) {
    && (forall w :: 0 <= w < |s.passes| - 1 ==> s.passes[w].stage == Done)
    && (Idle(s) ||
        var me := s.passes[|s.passes| - 1];
        s.row.status in {Open, PastDue} && me.seen.retryCount == s.row.retryCount)
  }

  lemma AppendedDone(s: State, p: Pass)
    requires Idle(s)
    ensures forall w :: 0 <= w < |s.passes + [p]| - 1 ==> (s.passes + [p])[w].stage == Done
  {
  }

  lemma StepAlone(c: Config, s: State, step: Step)
    requires c.retryDays != [] && Bounded(c, s) && Alone(c, s)
    requires step.Claim? || step.Pay? ==> Idle(s)
    ensures var t := Next(c, s, step);
            && Alone(c, t)
            && (t.completed == s.completed || t.completed == s.completed + 1)
            && (t.row.status != Paid ==> s.row.status != Paid)
            && (t.completed == s.completed + 1 ==> Remaining(c, t.row) < Remaining(c, s.row))
            && 0 <= Remaining(c, t.row) <= Remaining(c, s.row)
            && (t.row.status in {Uncollectible, Paid} <==> Remaining(c, t.row) == 0)
  {
    if step.Claim? {
      AppendedDone(s, Pass(Leased(s.row, s.now), s.now, Claimed));
    } else if step.Decide? || step.GiveUp? || step.Reschedule? || step.Crash? {
      assert At(s, step.w) ==> step.w == |s.passes| - 1;
    }
  }

  lemma {:induction false} RunAlone(c: Config, s: State, steps: seq<Step>)
    requires c.retryDays != [] && Bounded(c, s) && Alone(c, s) && Serial(c, s, steps)
    ensures var t := Run(c, s, steps);
            && (t.completed - s.completed) + Remaining(c, t.row) <= Remaining(c, s.row)
            && s.completed <= t.completed && 0 <= Remaining(c, t.row)
            && (t.row.status in {Uncollectible, Paid} <==> Remaining(c, t.row) == 0)
            && (s.row.status == Paid ==> t.row.status == Paid)
    decreases |steps|
  {
    if steps != [] {
      StepAlone(c, s, steps[0]);
      assert Bounded(c, Next(c, s, steps[0]));
      RunAlone(c, Next(c, s, steps[0]), steps[1..]);
    }
  }

  /** The remaining retries are a termination measure: while passes do not overlap, an invoice has at most as many
      completed passes as remained at the start, and is written off or paid when none remains, so by its
      (maxRetries + 1)-th completed pass at the latest. */
  lemma WrittenOffInTime(c: Config, r: Row, start: int, steps: seq<Step>)
    requires c.retryDays != [] && r.retryCount <= c.maxRetries && r.status in {Open, PastDue}
    requires r.mandate ==> r.managedBy == ByScheduler
    requires Serial(c, Overdue(r, start), steps)
    ensures var s := Run(c, Overdue(r, start), steps);
            && s.completed <= c.maxRetries + 1 - r.retryCount
            && (s.completed == c.maxRetries + 1 - r.retryCount ==> s.row.status in {Uncollectible, Paid})
  {
    RunAlone(c, Overdue(r, start), steps);
  }

  // ---- A payment during a pass ----

  lemma {:induction false} PaidWhileIdle(c: Config, s: State, steps: seq<Step>)
    requires c.retryDays != [] && s.row.status == Paid && Idle(s)
    ensures Run(c, s, steps).row.status == Paid
    decreases |steps|
  {
    if steps != [] {
      PaidWhileIdle(c, Next(c, s, steps[0]), steps[1..]);
    }
  }

  /** An open pass has a way to end that writes the status. */
  lemma OpenPassOverwrites(c: Config, s: State, w: nat) returns (steps: seq<Step>)
    requires c.retryDays != [] && At(s, w)
    ensures Run(c, s, steps).row.status != Paid
  {
    var decided := if s.passes[w].stage == Claimed then Next(c, s, Decide(w, false)) else s;
    var last := if decided.passes[w].stage == GivingUp then GiveUp(w, true) else Reschedule(w, true);
    assert Next(c, decided, last).row.status != Paid;
    RunOne(c, decided, last);
    if s.passes[w].stage == Claimed {
      steps := [Decide(w, false), last];
      assert steps[1..] == [last];
    } else {
      steps := [last];
    }
  }

  lemma RunOne(c: Config, s: State, step: Step)
    requires c.retryDays != []
    ensures Run(c, s, [step]) == Next(c, s, step)
  {
  }

  /** No write of a pass looks at the status again: a paid invoice stays paid in every continuation if and only if
      no pass over it is open. */
  lemma PaidStaysIff(c: Config, s: State)
    requires c.retryDays != [] && s.row.status == Paid
    ensures (forall steps :: Run(c, s, steps).row.status == Paid) <==> Idle(s)
  {
    if Idle(s) {
      forall steps ensures Run(c, s, steps).row.status == Paid {
        PaidWhileIdle(c, s, steps);
      }
    } else {
      var w :| 0 <= w < |s.passes| && s.passes[w].stage != Done;
      var steps := OpenPassOverwrites(c, s, w);
    }
  }

  /** So a payment that arrives between the claim and the end of a pass leaves the paid invoice past due again. */
  lemma PaymentDuringPassIsOverwritten(c: Config, r: Row, now: int)
    requires c.retryDays != [] && Claimable(r, now) && !GivesUp(c, r, now)
    ensures var paid := Next(c, Next(c, Next(c, Overdue(r, now), Claim), Decide(0, false)), Pay);
            && paid.row.status == Paid
            && Next(c, paid, Reschedule(0, true)).row.status == PastDue
  {
  }

  // ---- One sweep ----

  /** A batch of overdue invoices, each leased and then processed by the instance that sweeps. */
  const DUNNING_CLAIM_BATCH := 50
  const DUNNING_MAX_BATCHES_PER_TICK := 20

  /** processInvoice for a claimed row, when its writes succeed. */
  function Processed(c: Config, claimed: Row, now: int, inFlight: bool): Row
    requires c.retryDays != []
  {
    if inFlight then claimed
    else if GivesUp(c, claimed, now) then MarkedUncollectible(claimed)
    else Rescheduled(c, claimed, claimed, now)
  }

  lemma DistinctConcat(xs: seq<nat>, ys: seq<nat>)
    requires G.Distinct(xs) && G.Distinct(ys) && forall y :: y in ys ==> y !in xs
    ensures G.Distinct(xs + ys)
  {
    forall i, j | 0 <= i < j < |xs + ys| ensures (xs + ys)[i] != (xs + ys)[j] {
      if i < |xs| <= j {
        assert ys[j - |xs|] in ys;
      }
    }
  }

  /** What one claim did: the claimed invoices were claimable and are leased, the longest due first; the others are
      as they were, and none that is still claimable has been due longer. */
  ghost predicate LeasedBatch(before: seq<Row>, rows: seq<Row>, claimed: seq<nat>, now: int) {
    && |rows| == |before| && G.Distinct(claimed)
    && (forall i :: 0 <= i < |claimed| ==> claimed[i] < |rows|)
    && (forall k :: k in claimed ==> k < |rows| && Claimable(before[k], now) && rows[k] == Leased(before[k], now))
    && (forall k :: 0 <= k < |rows| && k !in claimed ==> rows[k] == before[k])
    && (forall i, j :: 0 <= i < j < |claimed| ==> before[claimed[i]].dueDate <= before[claimed[j]].dueDate)
    && (forall i, k :: 0 <= i < |claimed| && 0 <= k < |rows| && Claimable(rows[k], now) ==>
          before[claimed[i]].dueDate <= rows[k].dueDate)
  }

  lemma LeaseNext(before: seq<Row>, rows: seq<Row>, claimed: seq<nat>, now: int, next: nat)
    requires LeasedBatch(before, rows, claimed, now) && next < |rows| && Claimable(rows[next], now)
    requires forall i :: 0 <= i < |rows| && Claimable(rows[i], now) ==> rows[next].dueDate <= rows[i].dueDate
    ensures LeasedBatch(before, rows[next := Leased(rows[next], now)], claimed + [next], now)
  {
    assert next !in claimed;
    var after, more := rows[next := Leased(rows[next], now)], claimed + [next];
    assert forall k :: 0 <= k < |rows| && Claimable(after[k], now) ==> k != next && after[k] == rows[k];
    forall i, j | 0 <= i < j < |more| ensures more[i] != more[j] && before[more[i]].dueDate <= before[more[j]].dueDate {
      if j == |claimed| {
        assert claimed[i] in claimed;
      }
    }
  }

  /** Every retry interval is at least as long as a lease. */
  predicate IntervalsOutlastLease(c: Config) {
    forall d :: d in c.retryDays ==> d * DAY >= DUNNING_CLAIM_LEASE
  }

  class InvoiceStore {
    var rows: seq<Row>

    /** The claimable invoice that has been due longest, or the number of invoices when there is none. */
    method EarliestDue(now: int) returns (k: nat)
      ensures k <= |rows|
      ensures k < |rows| ==> Claimable(rows[k], now)
                             && forall i :: 0 <= i < |rows| && Claimable(rows[i], now) ==>
                                 rows[k].dueDate <= rows[i].dueDate
      ensures k == |rows| ==> forall i :: 0 <= i < |rows| ==> !Claimable(rows[i], now)
    {
      k := |rows|;
      for i := 0 to |rows|
        invariant k < i || k == |rows|
        invariant k < |rows| ==> Claimable(rows[k], now)
        invariant k < |rows| ==> forall j :: 0 <= j < i && Claimable(rows[j], now) ==>
            rows[k].dueDate <= rows[j].dueDate
        invariant k == |rows| ==> forall j :: 0 <= j < i ==> !Claimable(rows[j], now)
      {
        if Claimable(rows[i], now) && (k == |rows| || rows[i].dueDate < rows[k].dueDate) {
          k := i;
        }
      }
    }

    /** ClaimOverdueForDunning: at most `limit` claimable invoices, longest due first, leased in one statement. */
    method ClaimOverdue(now: int, limit: nat) returns (claimed: seq<nat>)
      modifies this
      ensures LeasedBatch(old(rows), rows, claimed, now) && |claimed| <= limit
      ensures |claimed| < limit ==> forall k :: 0 <= k < |rows| ==> !Claimable(rows[k], now)
    {
      claimed := [];
      while |claimed| < limit
        invariant LeasedBatch(old(rows), rows, claimed, now) && |claimed| <= limit
        decreases limit - |claimed|
      {
        var next := EarliestDue(now);
        if next == |rows| {
          return;
        }
        LeaseNext(old(rows), rows, claimed, now, next);
        rows := rows[next := Leased(rows[next], now)];
        claimed := claimed + [next];
      }
    }

    /** The loop over one claimed batch. */
    method ProcessBatch(c: Config, now: int, inFlight: set<nat>, claimed: seq<nat>)
      requires c.retryDays != []
      requires forall k :: k in claimed ==> k < |rows|
      requires G.Distinct(claimed)
      modifies this
      ensures |rows| == |old(rows)|
      ensures forall k :: k in claimed ==> rows[k] == Processed(c, old(rows)[k], now, k in inFlight)
      ensures forall k :: 0 <= k < |rows| && k !in claimed ==> rows[k] == old(rows)[k]
    {
      for i := 0 to |claimed|
        invariant |rows| == |old(rows)|
        invariant forall k :: k in claimed && k in claimed[..i] ==>
            rows[k] == Processed(c, old(rows)[k], now, k in inFlight)
        invariant forall k :: 0 <= k < |rows| && k !in claimed[..i] ==> rows[k] == old(rows)[k]
      {
        var k := claimed[i];
        assert k in claimed && k !in claimed[..i];
        assert claimed[..i + 1] == claimed[..i] + [k];
        rows := rows[k := Processed(c, rows[k], now, k in inFlight)];
      }
    }

    /** processDunning: batches until one comes back short, at most twenty.  A tick works each invoice at most once,
        only ones that were due, and when it does fewer than its bound nothing due is left. */
    method ProcessDunning(c: Config, now: int, inFlight: set<nat>) returns (worked: seq<nat>)
      requires c.retryDays != [] && IntervalsOutlastLease(c)
      modifies this
      ensures |rows| == |old(rows)|
      ensures G.Distinct(worked)
      ensures forall k :: k in worked ==>
                && k < |rows| && Claimable(old(rows)[k], now)
                && rows[k] == Processed(c, Leased(old(rows)[k], now), now, k in inFlight)
      ensures forall k :: 0 <= k < |rows| && k !in worked ==> rows[k] == old(rows)[k]
      ensures |worked| < DUNNING_CLAIM_BATCH * DUNNING_MAX_BATCHES_PER_TICK ==>
                forall k :: 0 <= k < |rows| ==> !Claimable(rows[k], now)
    {
      worked := [];
      var batch := 0;
      while batch < DUNNING_MAX_BATCHES_PER_TICK
        invariant 0 <= batch <= DUNNING_MAX_BATCHES_PER_TICK && |worked| == batch * DUNNING_CLAIM_BATCH
        invariant |rows| == |old(rows)|
        invariant G.Distinct(worked)
        invariant forall k :: k in worked ==>
                    && k < |rows| && Claimable(old(rows)[k], now)
                    && rows[k] == Processed(c, Leased(old(rows)[k], now), now, k in inFlight)
        invariant forall k :: 0 <= k < |rows| && k !in worked ==> rows[k] == old(rows)[k]
      {
        WorkedNotDue(c, old(rows), rows, worked, now, inFlight);
        var claimed := ClaimOverdue(now, DUNNING_CLAIM_BATCH);
        ProcessBatch(c, now, inFlight, claimed);
        DistinctConcat(worked, claimed);
        worked := worked + claimed;
        if |claimed| < DUNNING_CLAIM_BATCH {
          WorkedNotDue(c, old(rows), rows, worked, now, inFlight);
          return;
        }
        batch := batch + 1;
      }
    }
  }

  /** A processed invoice is not due again within the same tick. */
  lemma ProcessedNotDue(c: Config, r: Row, now: int, inFlight: bool)
    requires c.retryDays != [] && IntervalsOutlastLease(c)
    ensures !Claimable(Processed(c, Leased(r, now), now, inFlight), now)
  {
    assert NextRetryDays(c, r.retryCount) in c.retryDays;
  }

  lemma WorkedNotDue(c: Config, before: seq<Row>, rows: seq<Row>, worked: seq<nat>, now: int, inFlight: set<nat>)
    requires c.retryDays != [] && IntervalsOutlastLease(c) && |before| == |rows|
    requires forall k :: k in worked ==>
        k < |rows| && rows[k] == Processed(c, Leased(before[k], now), now, k in inFlight)
    ensures forall k :: k in worked ==> !Claimable(rows[k], now)
  {
    forall k | k in worked ensures !Claimable(rows[k], now) {
      ProcessedNotDue(c, before[k], now, k in inFlight);
    }
  }
}

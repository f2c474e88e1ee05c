/**
  A cancel-flow session: survey, offer and confirmation steps submitted over
  HTTP, possibly several at once (internal/service/cancel_flow.go:128-241, 257-375;
  internal/adapter/db/cancel_flow_repository.go:274-317).

  A submission reads the session, claims the step in one conditional update,
  runs the step's effect, and writes the whole session row back.
 */
module CancelFlow {

  datatype StepKind = Survey | Offer | Confirmation
  datatype Status = InProgress | Saved | Completed

  /** The columns that decide what may happen next. */
  datatype Session = Session(status: Status, index: nat)

  datatype Stage = Claiming | Acting | Writing(row: Session) | Done

  /** One submission: its step, the session as it read it, and where it stands. */
  datatype Worker = Worker(k: nat, seen: Session, stage: Stage)

  /** `effects` counts, per step index, the offers applied and the cancellations made; `claims` the claims won. */
  datatype State = State(row: Session, workers: seq<Worker>, claims: multiset<nat>, effects: multiset<nat>)

  datatype Step =
    | Submit(k: int)
    | Claim(w: nat, ok: bool)
    | Act(w: nat, ok: bool, accepted: bool)
    | Write(w: nat, ok: bool)

  const START := State(Session(InProgress, 0), [], multiset{}, multiset{})

  /** What the step does once claimed: the row to write back, or nothing when it failed; and whether it had an
      effect. */
  function Outcome(kind: StepKind, seen: Session, ok: bool, accepted: bool): (Stage, bool) {
    if !ok then (Done, false)
    else match kind
      case Survey => (Writing(seen), false)
      case Offer => if accepted then (Writing(seen.(status := Saved)), true) else (Writing(seen), false)
      case Confirmation => (Writing(seen.(status := Completed)), true)
  }

  function Next(flow: seq<StepKind>, s: State, step: Step): State {
    match step
    case Submit(k) =>
      if s.row.status == InProgress && k < |flow| && k == s.row.index
      then s.(workers := s.workers + [Worker(s.row.index, s.row, Claiming)]) else s
    case Claim(w, ok) =>
      if w >= |s.workers| || s.workers[w].stage != Claiming then s
      else
        var me := s.workers[w];
        if ok && s.row == Session(InProgress, me.k)
        then State(Session(InProgress, me.k + 1),
                   s.workers[w := Worker(me.k, me.seen.(index := me.k + 1), Acting)], s.claims + multiset{me.k},
                       s.effects)
        else s.(workers := s.workers[w := me.(stage := Done)])
    case Act(w, ok, accepted) =>
      if w >= |s.workers| || s.workers[w].stage != Acting || s.workers[w].k >= |flow| then s
      else
        var me := s.workers[w];
        var (stage, effect) := Outcome(flow[me.k], me.seen, ok, accepted);
        s.(workers := s.workers[w := me.(stage := stage)],
           effects := if effect then s.effects + multiset{me.k} else s.effects)
    case Write(w, ok) =>
      if w >= |s.workers| || !s.workers[w].stage.Writing? then s
      else s.(workers := s.workers[w := s.workers[w].(stage := Done)],
              row := if ok then s.workers[w].stage.row else s.row)
  }

  function Run(flow: seq<StepKind>, s: State, steps: seq<Step>): State
    decreases |steps|
  {
    if steps == [] then s else Run(flow, Next(flow, s, steps[0]), steps[1..])
  }

  // ---- At most once per claim ----

  predicate ActsOn(me: Worker, k: nat) {
    me.k == k && me.stage == Acting
  }

  function ActingOn(ws: seq<Worker>, k: nat): nat {
    if ws == [] then 0
    else ActingOn(ws[..|ws| - 1], k) + (if ActsOn(ws[|ws| - 1], k) then 1 else 0)
  }

  lemma {:induction false} ActingUpdate(ws: seq<Worker>, w: nat, me: Worker, k: nat)
    requires w < |ws|
    ensures ActingOn(ws[w := me], k)
         == ActingOn(ws, k) - (if ws[w].k == k && ws[w].stage == Acting then 1 else 0)
          + (if me.k == k && me.stage == Acting then 1 else 0)
  {
    var last := |ws| - 1;
    if w == last {
      assert ws[w := me][..last] == ws[..last];
    } else {
      assert ws[w := me][..last] == ws[..last][w := me];
      ActingUpdate(ws[..last], w, me, k);
    }
  }

  lemma ActingSnoc(ws: seq<Worker>, me: Worker, k: nat)
    requires me.stage != Acting
    ensures ActingOn(ws + [me], k) == ActingOn(ws, k)
  {
  }

  /** Every effect spends a claim, and a worker about to act holds one it has not spent. */
  ghost predicate OncePerClaim(s: State) {
    forall k: nat :: s.effects[k] + ActingOn(s.workers, k) <= s.claims[k]
  }

  lemma StepOncePerClaim(flow: seq<StepKind>, s: State, step: Step)
    requires OncePerClaim(s)
    ensures OncePerClaim(Next(flow, s, step))
  {
    forall k: nat ensures Next(flow, s, step).effects[k] + ActingOn(Next(flow, s, step).workers, k)
                        <= Next(flow, s, step).claims[k] {
      StepOncePerClaimOf(flow, s, step, k);
    }
  }

  lemma StepOncePerClaimOf(flow: seq<StepKind>, s: State, step: Step, k: nat)
    requires s.effects[k] + ActingOn(s.workers, k) <= s.claims[k]
    ensures var t := Next(flow, s, step); t.effects[k] + ActingOn(t.workers, k) <= t.claims[k]
  {
    match step
    case Submit(_) => ActingSnoc(s.workers, Worker(s.row.index, s.row, Claiming), k);
    case Claim(w, _) => if w < |s.workers| { ClaimOnce(flow, s, step, k); }
    case Act(w, _, _) => if w < |s.workers| { ActOnce(flow, s, step, k); }
    case Write(w, _) => if w < |s.workers| { ActingUpdate(s.workers, w, s.workers[w].(stage := Done), k); }
  }

  lemma ClaimOnce(flow: seq<StepKind>, s: State, step: Step, k: nat)
    requires step.Claim? && step.w < |s.workers|
    requires s.effects[k] + ActingOn(s.workers, k) <= s.claims[k]
    ensures var t := Next(flow, s, step); t.effects[k] + ActingOn(t.workers, k) <= t.claims[k]
  {
    ActingUpdate(s.workers, step.w, Next(flow, s, step).workers[step.w], k);
  }

  lemma ActOnce(flow: seq<StepKind>, s: State, step: Step, k: nat)
    requires step.Act? && step.w < |s.workers|
    requires s.effects[k] + ActingOn(s.workers, k) <= s.claims[k]
    ensures var t := Next(flow, s, step); t.effects[k] + ActingOn(t.workers, k) <= t.claims[k]
  {
    ActingUpdate(s.workers, step.w, Next(flow, s, step).workers[step.w], k);
  }

  lemma {:induction false} RunOncePerClaim(flow: seq<StepKind>, s: State, steps: seq<Step>)
    requires OncePerClaim(s)
    ensures OncePerClaim(Run(flow, s, steps))
    decreases |steps|
  {
    if steps != [] {
      StepOncePerClaim(flow, s, steps[0]);
      RunOncePerClaim(flow, Next(flow, s, steps[0]), steps[1..]);
    }
  }

  // ---- At most once per step ----

  /** The row a worker writes back was overtaken: a later step has been claimed since. */
  predicate Stale(s: State, step: Step) {
    step.Write? && step.ok && step.w < |s.workers| && s.workers[step.w].stage.Writing?
    && s.row.index != s.workers[step.w].k + 1
  }

  predicate NoStaleWrite(flow: seq<StepKind>, s: State, steps: seq<Step>)
    decreases |steps|
  {
    steps == [] || (!Stale(s, steps[0]) && NoStaleWrite(flow, Next(flow, s, steps[0]), steps[1..]))
  }

  /** Exactly the steps before the stored index have been claimed, once each. */
  ghost predicate ClaimedOnce(s: State) {
    && (forall k: nat :: s.claims[k] == if k < s.row.index then 1 else 0)
    && (forall w :: 0 <= w < |s.workers| ==>
          && (s.workers[w].stage == Acting ==> s.workers[w].seen.index == s.workers[w].k + 1)
          && (s.workers[w].stage.Writing? ==> s.workers[w].stage.row.index == s.workers[w].k + 1)
          && (s.workers[w].stage == Acting || s.workers[w].stage.Writing? ==> s.workers[w].k < s.row.index))
  }

  lemma {:induction false} RunClaimedOnce(flow: seq<StepKind>, s: State, steps: seq<Step>)
    requires ClaimedOnce(s) && NoStaleWrite(flow, s, steps)
    ensures ClaimedOnce(Run(flow, s, steps))
    ensures s.row.index <= Run(flow, s, steps).row.index
    decreases |steps|
  {
    if steps != [] {
      var t := Next(flow, s, steps[0]);
      assert ClaimedOnce(t);
      RunClaimedOnce(flow, t, steps[1..]);
    }
  }

  /** However many submissions of a step race, and whichever of their writes fail: as long as no row is written back
      after a later step was claimed, the step index never goes back and each step takes effect at most once. */
  lemma EffectAtMostOnce(flow: seq<StepKind>, steps: seq<Step>, more: seq<Step>, k: nat)
    requires NoStaleWrite(flow, START, steps) && NoStaleWrite(flow, Run(flow, START, steps), more)
    ensures Run(flow, START, steps).effects[k] <= 1
    ensures Run(flow, START, steps).row.index <= Run(flow, Run(flow, START, steps), more).row.index
  {
    RunOncePerClaim(flow, START, steps);
    RunClaimedOnce(flow, START, steps);
    RunClaimedOnce(flow, Run(flow, START, steps), more);
  }

  /** The row that a write would put back. */
  function Written(s: State, step: Step): Session
    requires step.Write? && step.w < |s.workers| && s.workers[step.w].stage.Writing?
  {
    s.workers[step.w].stage.row
  }

  /** As long as no write was stale: a write puts the step index back if and only if it is stale, and it opens a
      step that was claimed before if and only if, besides, the row it writes is in progress. */
  lemma WriteReopensIff(flow: seq<StepKind>, s: State, step: Step)
    requires ClaimedOnce(s) && step.Write?
    ensures var t := Next(flow, s, step);
            && (t.row.index < s.row.index <==> Stale(s, step))
            && (t.row.status == InProgress && t.claims[t.row.index] > 0
                <==> Stale(s, step) && Written(s, step).status == InProgress)
  {
  }

  /** And such a step can then be claimed a second time, by the next submission. */
  lemma StaleWriteReclaims(flow: seq<StepKind>, s: State, step: Step)
    requires ClaimedOnce(s) && Stale(s, step) && Written(s, step).status == InProgress
    requires Written(s, step).index < |flow|
    ensures var k := Written(s, step).index;
            Next(flow, Next(flow, Next(flow, s, step), Submit(k)), Claim(|s.workers|, true)).claims[k] == 2
  {
  }

  // ---- One step at a time ----

  predicate Idle(s: State) {
    forall w :: 0 <= w < |s.workers| ==> s.workers[w].stage == Done
  }

  /** Each submission finishes before the next begins, and session writes succeed. */
  predicate Serial(flow: seq<StepKind>, s: State, steps: seq<Step>)
    decreases |steps|
  {
    steps == [] ||
    (&& (steps[0].Submit? ==> Idle(s)) && (steps[0].Write? ==> steps[0].ok)
     && Serial(flow, Next(flow, s, steps[0]), steps[1..]))
  }

  predicate LastDone(s: State) {
    s.workers == [] || s.workers[|s.workers| - 1].stage == Done
  }

  predicate OthersDone(s: State) {
    forall w :: 0 <= w < |s.workers| - 1 ==> s.workers[w].stage == Done
  }

  /** What the stored row and the one open submission say about the effects so far. */
  ghost predicate Consistent(flow: seq<StepKind>, s: State) {
    && OthersDone(s)
    && (if LastDone(s) then Tells(flow, s.row.status, s.effects)
        else
          var me := s.workers[|s.workers| - 1];
          && s.row.status == InProgress && me.seen.status == InProgress
          && me.k < |flow|
          && s.row.index == (if me.stage == Claiming then me.k else me.k + 1)
          && (me.stage == Claiming ==> me.seen.index == me.k)
          && (me.stage == Acting ==> me.seen.index == me.k + 1)
          && (if me.stage.Writing? then me.stage.row.index == me.k + 1 && Tells(flow, me.stage.row.status, s.effects)
              else s.effects == multiset{}))
  }

  /** In progress: nothing happened.  Saved: one offer was applied.  Completed: the subscription was cancelled once. */
  ghost predicate Tells(flow: seq<StepKind>, status: Status, effects: multiset<nat>) {
    match status
    case InProgress => effects == multiset{}
    case Saved => exists k :: 0 <= k < |flow| && flow[k] == Offer && effects == multiset{k}
    case Completed => exists k :: 0 <= k < |flow| && flow[k] == Confirmation && effects == multiset{k}
  }

  lemma ClaimConsistent(flow: seq<StepKind>, s: State, step: Step)
    requires Consistent(flow, s) && !LastDone(s) && step.Claim? && step.w == |s.workers| - 1
    ensures Consistent(flow, Next(flow, s, step))
  {
  }

  lemma ActConsistent(flow: seq<StepKind>, s: State, step: Step)
    requires Consistent(flow, s) && !LastDone(s) && step.Act? && step.w == |s.workers| - 1
    ensures Consistent(flow, Next(flow, s, step))
  {
  }

  lemma WriteConsistent(flow: seq<StepKind>, s: State, step: Step)
    requires Consistent(flow, s) && !LastDone(s) && step.Write? && step.ok && step.w == |s.workers| - 1
    ensures Consistent(flow, Next(flow, s, step))
    ensures s.row.index <= Next(flow, s, step).row.index
  {
  }

  lemma SubmitConsistent(flow: seq<StepKind>, s: State, step: Step)
    requires Consistent(flow, s) && step.Submit? && Idle(s)
    ensures Consistent(flow, Next(flow, s, step))
  {
  }

  /** A worker that is done takes no step. */
  lemma DoneStays(flow: seq<StepKind>, s: State, step: Step)
    requires OthersDone(s) && !step.Submit?
    requires LastDone(s) || step.w != |s.workers| - 1
    ensures Next(flow, s, step) == s
  {
  }

  lemma StepConsistent(flow: seq<StepKind>, s: State, step: Step)
    requires Consistent(flow, s)
    requires (step.Submit? ==> Idle(s)) && (step.Write? ==> step.ok)
    ensures Consistent(flow, Next(flow, s, step))
    ensures s.row.index <= Next(flow, s, step).row.index
  {
    if step.Submit? {
      SubmitConsistent(flow, s, step);
    } else if LastDone(s) || step.w != |s.workers| - 1 {
      DoneStays(flow, s, step);
    } else {
      match step
      case Claim(_, _) => ClaimConsistent(flow, s, step);
      case Act(_, _, _) => ActConsistent(flow, s, step);
      case Write(_, _) => WriteConsistent(flow, s, step);
    }
  }

  lemma {:induction false} RunConsistent(flow: seq<StepKind>, s: State, steps: seq<Step>)
    requires Consistent(flow, s) && Serial(flow, s, steps)
    ensures Consistent(flow, Run(flow, s, steps))
    ensures s.row.index <= Run(flow, s, steps).row.index
    decreases |steps|
  {
    if steps != [] {
      StepConsistent(flow, s, steps[0]);
      RunConsistent(flow, Next(flow, s, steps[0]), steps[1..]);
    }
  }

  /** Over any run in which each submission finishes before the next begins and session writes succeed, the session
      ends with exactly one of an accepted offer and a cancellation, never both, and until it ends it has neither. */
  lemma ExactlyOneEnding(flow: seq<StepKind>, steps: seq<Step>)
    requires Serial(flow, START, steps) && Idle(Run(flow, START, steps))
    ensures Tells(flow, Run(flow, START, steps).row.status, Run(flow, START, steps).effects)
  {
    RunConsistent(flow, START, steps);
  }

  // ---- What breaks it ----

  lemma RunPair(flow: seq<StepKind>, s: State, x: Step, rest: seq<Step>)
    ensures Run(flow, s, [x] + rest) == Run(flow, Next(flow, s, x), rest)
  {
    assert ([x] + rest)[1..] == rest;
  }

  // ---- Which sessions can still end ----

  predicate Ends(kind: StepKind) {
    kind == Offer || kind == Confirmation
  }

  /** A step at or after the index that can end the session. */
  predicate EndAhead(flow: seq<StepKind>, from: nat) {
    exists k :: from <= k < |flow| && Ends(flow[k])
  }

  /** Everything about is in progress, at a step from which only surveys follow. */
  ghost predicate OnlySurveys(flow: seq<StepKind>, s: State, from: nat) {
    && !EndAhead(flow, from)
    && s.row.status == InProgress && from <= s.row.index
    && (forall w :: 0 <= w < |s.workers| && s.workers[w].stage != Done ==>
          && from <= s.workers[w].k && from <= s.workers[w].seen.index && s.workers[w].seen.status == InProgress
          && (s.workers[w].stage.Writing? ==>
                s.workers[w].stage.row.status == InProgress && from <= s.workers[w].stage.row.index))
  }

  lemma StaysOnSurveys(flow: seq<StepKind>, s: State, from: nat, step: Step)
    requires OnlySurveys(flow, s, from)
    ensures OnlySurveys(flow, Next(flow, s, step), from)
  {
    if step.Act? && step.w < |s.workers| && s.workers[step.w].stage == Acting && s.workers[step.w].k < |flow| {
      assert flow[s.workers[step.w].k] == Survey;
    }
  }

  lemma {:induction false} NeverEnds(flow: seq<StepKind>, s: State, from: nat, steps: seq<Step>)
    requires OnlySurveys(flow, s, from)
    ensures Run(flow, s, steps).row.status == InProgress
    decreases |steps|
  {
    if steps != [] {
      StaysOnSurveys(flow, s, from, steps[0]);
      NeverEnds(flow, Next(flow, s, steps[0]), from, steps[1..]);
    }
  }

  /** One submission that succeeds, accepting an offer. */
  function Submission(flow: seq<StepKind>, s: State): State {
    var w := |s.workers|;
    Next(flow, Next(flow, Next(flow, Next(flow, s, Submit(s.row.index)), Claim(w, true)), Act(w, true, true)),
        Write(w, true))
  }

  lemma SubmissionMoves(flow: seq<StepKind>, s: State)
    requires Idle(s) && s.row.status == InProgress && s.row.index < |flow|
    ensures var t := Submission(flow, s);
            && Idle(t)
            && t.row.index == s.row.index + 1
            && t.row.status == (match flow[s.row.index]
                                case Survey => InProgress
                                case Offer => Saved
                                case Confirmation => Completed)
  {
    var w, k := |s.workers|, s.row.index;
    var s1 := Next(flow, s, Submit(k));
    assert s1.workers[w] == Worker(k, s.row, Claiming);
    var s2 := Next(flow, s1, Claim(w, true));
    assert s2.workers[w] == Worker(k, Session(InProgress, k + 1), Acting);
    var s3 := Next(flow, s2, Act(w, true, true));
    assert s3.workers[w].stage.Writing?;
  }

  lemma SubmissionRuns(flow: seq<StepKind>, s: State, rest: seq<Step>) returns (steps: seq<Step>)
    ensures Run(flow, s, steps) == Run(flow, Submission(flow, s), rest)
  {
    var w := |s.workers|;
    var s1 := Next(flow, s, Submit(s.row.index));
    var s2 := Next(flow, s1, Claim(w, true));
    var s3 := Next(flow, s2, Act(w, true, true));
    RunPair(flow, s3, Write(w, true), rest);
    RunPair(flow, s2, Act(w, true, true), [Write(w, true)] + rest);
    RunPair(flow, s1, Claim(w, true), [Act(w, true, true)] + ([Write(w, true)] + rest));
    RunPair(flow, s, Submit(s.row.index), [Claim(w, true)] + ([Act(w, true, true)] + ([Write(w, true)] + rest)));
    steps := [Submit(s.row.index)] + ([Claim(w, true)] + ([Act(w, true, true)] + ([Write(w, true)] + rest)));
  }

  lemma {:induction false} EndsAhead(flow: seq<StepKind>, s: State) returns (steps: seq<Step>)
    requires Idle(s) && s.row.status == InProgress && EndAhead(flow, s.row.index)
    ensures Run(flow, s, steps).row.status != InProgress
    decreases |flow| - s.row.index
  {
    SubmissionMoves(flow, s);
    var t := Submission(flow, s);
    if Ends(flow[s.row.index]) {
      steps := SubmissionRuns(flow, s, []);
    } else {
      var rest := EndsAhead(flow, t);
      steps := SubmissionRuns(flow, s, rest);
    }
  }

  /** A session in progress that nobody is working on has a run that ends it if and only if an offer or a
      confirmation is still at or after its index. */
  lemma CanEndIff(flow: seq<StepKind>, s: State)
    requires Idle(s) && s.row.status == InProgress
    ensures (exists steps :: Run(flow, s, steps).row.status != InProgress) <==> EndAhead(flow, s.row.index)
  {
    if EndAhead(flow, s.row.index) {
      var steps := EndsAhead(flow, s);
    } else {
      forall steps ensures Run(flow, s, steps).row.status == InProgress {
        NeverEnds(flow, s, s.row.index, steps);
      }
    }
  }

  // ---- Runs that strand, and repeat ----

  /** A session in progress past its last step can never end. */
  lemma {:induction false} PastTheEnd(flow: seq<StepKind>, s: State, steps: seq<Step>)
    requires Idle(s) && s.row.status == InProgress && s.row.index >= |flow|
    ensures Run(flow, s, steps) == s
    decreases |steps|
  {
    if steps != [] {
      PastTheEnd(flow, Next(flow, s, steps[0]), steps[1..]);
    }
  }

  /** The claim is not given back when the step fails: a final confirmation whose cancellation fails leaves the
      session in progress for good, whatever is submitted next. */
  lemma FailedConfirmationStrands(flow: seq<StepKind>, s: State, steps: seq<Step>)
    requires Idle(s) && flow != [] && s.row == Session(InProgress, |flow| - 1) && flow[|flow| - 1] == Confirmation
    ensures var w := |s.workers|;
            var failed := Run(flow, s, [Submit(|flow| - 1), Claim(w, true), Act(w, false, false)]);
            && Run(flow, failed, steps) == failed
            && failed.row == Session(InProgress, |flow|) && failed.effects == s.effects
  {
    var k, w := |flow| - 1, |s.workers|;
    var s1 := Next(flow, s, Submit(k));
    var s2 := Next(flow, s1, Claim(w, true));
    var s3 := Next(flow, s2, Act(w, false, false));
    RunPair(flow, s, Submit(k), [Claim(w, true), Act(w, false, false)]);
    assert [Submit(k)] + [Claim(w, true), Act(w, false, false)] == [Submit(k), Claim(w, true), Act(w, false, false)];
    RunPair(flow, s1, Claim(w, true), [Act(w, false, false)]);
    assert [Claim(w, true)] + [Act(w, false, false)] == [Claim(w, true), Act(w, false, false)];
    RunPair(flow, s2, Act(w, false, false), []);
    assert [Act(w, false, false)] + [] == [Act(w, false, false)];
    PastTheEnd(flow, s3, steps);
  }

  /** One submission, accepting an offer, up to but not including its write. */
  function Accept(flow: seq<StepKind>, s: State, k: nat): State {
    var w := |s.workers|;
    Next(flow, Next(flow, Next(flow, s, Submit(k)), Claim(w, true)), Act(w, true, true))
  }

  /** With a survey at step j still to be written while the offer at step j + 1 is accepted, the survey's write
      reopens the offer, and accepting it again applies it a second time. */
  lemma LateWriteRepeats(flow: seq<StepKind>, s: State, w: nat, j: nat)
    requires w < |s.workers| && s.workers[w] == Worker(j, s.workers[w].seen, Writing(Session(InProgress, j + 1)))
    requires s.row == Session(InProgress, j + 1) && j + 1 < |flow| && flow[j + 1] == Offer
    ensures var first := Accept(flow, s, j + 1);
            var late := Next(flow, first, Write(w, true));
            && Stale(first, Write(w, true))
            && Accept(flow, late, j + 1).effects[j + 1] == s.effects[j + 1] + 2
  {
  }

  lemma AcceptRuns(flow: seq<StepKind>, s: State, k: nat, rest: seq<Step>) returns (steps: seq<Step>)
    ensures Run(flow, s, steps) == Run(flow, Accept(flow, s, k), rest)
  {
    var w := |s.workers|;
    var s1 := Next(flow, s, Submit(k));
    var s2 := Next(flow, s1, Claim(w, true));
    RunPair(flow, s2, Act(w, true, true), rest);
    RunPair(flow, s1, Claim(w, true), [Act(w, true, true)] + rest);
    RunPair(flow, s, Submit(k), [Claim(w, true)] + ([Act(w, true, true)] + rest));
    steps := [Submit(k)] + ([Claim(w, true)] + ([Act(w, true, true)] + rest));
  }

  /** The same as a run from the start, in any flow that begins with a survey and an offer: every statement
      succeeds, and the offer is applied twice. */
  lemma StaleWriteRepeatsOffer(flow: seq<StepKind>) returns (steps: seq<Step>)
    requires |flow| >= 2 && flow[0] == Survey && flow[1] == Offer
    ensures Run(flow, START, steps).effects[1] == 2
  {
    var s := Accept(flow, START, 0);
    SurveyActs(flow);
    LateWriteRepeats(flow, s, 0, 0);
    var first := Accept(flow, s, 1);
    var late := Next(flow, first, Write(0, true));
    var again := AcceptRuns(flow, late, 1, []);
    RunPair(flow, first, Write(0, true), again);
    var both := AcceptRuns(flow, s, 1, [Write(0, true)] + again);
    steps := AcceptRuns(flow, START, 0, both);
  }

  lemma SurveyActs(flow: seq<StepKind>)
    requires |flow| >= 2 && flow[0] == Survey
    ensures var s := Accept(flow, START, 0);
            && s.workers == [Worker(0, Session(InProgress, 1), Writing(Session(InProgress, 1)))]
            && s.row == Session(InProgress, 1) && s.effects == multiset{}
  {
    var s1 := Next(flow, START, Submit(0));
    assert s1.workers == [Worker(0, Session(InProgress, 0), Claiming)];
    var s2 := Next(flow, s1, Claim(0, true));
    assert s2.workers == [Worker(0, Session(InProgress, 1), Acting)];
  }

  // ---- The service, one submission at a time ----

  datatype Response = Refused | Failed | Advanced(next: nat) | Ended(status: Status)

  /** The four steps of one submission, with no other worker about. */
  function Alone(flow: seq<StepKind>, s: State, k: int, claimOk: bool, actOk: bool, accepted: bool,
      writeOk: bool): State {
    Next(flow, Next(flow, Next(flow, Next(flow, s, Submit(k)), Claim(0, claimOk)), Act(0, actOk, accepted)),
        Write(0, writeOk))
  }

  lemma AloneResult(flow: seq<StepKind>, s: State, k: int, claimOk: bool, actOk: bool, accepted: bool, writeOk: bool)
    requires s.workers == []
    ensures var t := Alone(flow, s, k, claimOk, actOk, accepted, writeOk);
            if !claimOk || s.row.status != InProgress || k != s.row.index || k >= |flow| then
              t.row == s.row && t.claims == s.claims && t.effects == s.effects
            else
              var (stage, effect) := Outcome(flow[k], Session(InProgress, k + 1), actOk, accepted);
              && t.claims == s.claims + multiset{k}
              && t.effects == (if effect then s.effects + multiset{k} else s.effects)
              && t.row == (if stage.Writing? && writeOk then stage.row else Session(InProgress, k + 1))
  {
    var s1 := Next(flow, s, Submit(k));
    if s1 != s {
      assert s1.workers == [Worker(k, s.row, Claiming)];
      var s2 := Next(flow, s1, Claim(0, claimOk));
      if claimOk {
        assert s2.workers == [Worker(k, Session(InProgress, k + 1), Acting)];
      }
    }
  }

  class SessionStore {
    var row: Session
    var claims: multiset<nat>
    var effects: multiset<nat>

    /** ClaimStep: one conditional update. */
    method ClaimStep(expected: nat, ok: bool) returns (claimed: bool)
      modifies this
      ensures claimed == (ok && old(row) == Session(InProgress, expected))
      ensures row == if claimed then Session(InProgress, expected + 1) else old(row)
      ensures claims == if claimed then old(claims) + multiset{expected} else old(claims)
      ensures effects == old(effects)
    {
      claimed := ok && row.status == InProgress && row.index == expected;
      if claimed {
        row := row.(index := row.index + 1);
        claims := claims + multiset{expected};
      }
    }

    /** SubmitStep: the same four steps as a worker of the protocol that meets no other. */
    method SubmitStep(flow: seq<StepKind>, k: int, claimOk: bool, actOk: bool, accepted: bool, writeOk: bool)
      returns (r: Response)
      modifies this
      ensures var t := Alone(flow, State(old(row), [], old(claims), old(effects)), k, claimOk, actOk, accepted,
          writeOk);
              row == t.row && claims == t.claims && effects == t.effects
      ensures r.Ended? ==> row.status == r.status != InProgress
      ensures r.Advanced? ==> row == Session(InProgress, r.next) && r.next == k + 1
      ensures r.Refused? ==> row == old(row) && effects == old(effects)
    {
      AloneResult(flow, State(row, [], claims, effects), k, claimOk, actOk, accepted, writeOk);
      if row.status != InProgress || k >= |flow| || k != row.index {
        return Refused;
      }
      var seen := row;
      var claimed := ClaimStep(k, claimOk);
      if !claimed {
        return Refused;
      }
      seen := seen.(index := k + 1);
      if !actOk {
        return Failed;
      }
      match flow[k] {
        case Survey =>
        case Offer =>
          if accepted {
            effects := effects + multiset{k};
            seen := seen.(status := Saved);
          }
        case Confirmation =>
          effects := effects + multiset{k};
          seen := seen.(status := Completed);
      }
      if !writeOk {
        return Failed;
      }
      row := seen;
      return if seen.status == InProgress then Advanced(k + 1) else Ended(seen.status);
    }
  }
}

/**
  What single statements of a submission do to a cancel-flow session
  (internal/service/cancel_flow.go:128-241, 257-375;
  internal/adapter/db/cancel_flow_repository.go:274-317).
 */
module CancelOutcomes {
  import opened CancelFlow

  predicate OnlyWorker(s: State, t: State, w: nat) {
    && w < |s.workers| == |t.workers| && t.workers[w].k == s.workers[w].k
    && forall v :: 0 <= v < |s.workers| && v != w ==> t.workers[v] == s.workers[v]
  }

  /** A submission is taken up exactly when the session is in progress and expects that step of its flow. */
  lemma SubmissionIff(flow: seq<StepKind>, s: State, k: int)
    ensures var t := Next(flow, s, Submit(k));
            && (t != s <==> s.row.status == InProgress && k == s.row.index && s.row.index < |flow|)
            && (t != s ==> t == s.(workers := s.workers + [Worker(s.row.index, s.row, Claiming)]))
  {
  }

  /** The claim moves the session past the step exactly when it still expects it; otherwise the submission ends
      without a trace. */
  lemma ClaimIs(flow: seq<StepKind>, s: State, w: nat, ok: bool)
    requires w < |s.workers| && s.workers[w].stage == Claiming
    ensures var t, k := Next(flow, s, Claim(w, ok)), s.workers[w].k;
            var won := ok && s.row.status == InProgress && s.row.index == k;
            && OnlyWorker(s, t, w) && t.effects == s.effects
            && (!won ==> t.row == s.row && t.claims == s.claims && t.workers[w].stage == Done)
            && (won ==> t.row == Session(InProgress, k + 1) && t.claims == s.claims + multiset{k}
                        && t.workers[w].stage == Acting && t.workers[w].seen.index == k + 1
                        && t.workers[w].seen.status == s.workers[w].seen.status)
  {
  }

  /** A survey and a declined offer have no effect and go on to the next step; an accepted offer saves the customer,
      a confirmation cancels, each with one effect; and a step that fails ends its submission, writing nothing. */
  lemma ActIs(flow: seq<StepKind>, s: State, w: nat, ok: bool, accepted: bool)
    requires w < |s.workers| && s.workers[w].stage == Acting && s.workers[w].k < |flow|
    ensures var t, k, seen := Next(flow, s, Act(w, ok, accepted)), s.workers[w].k, s.workers[w].seen;
            var saves, ends := ok && flow[k] == Offer && accepted, ok && flow[k] == Confirmation;
            && OnlyWorker(s, t, w) && t.row == s.row && t.claims == s.claims
            && t.effects == (if saves || ends then s.effects + multiset{k} else s.effects)
            && (!ok ==> t.workers[w].stage == Done)
            && (ok ==> t.workers[w].stage == Writing(Session(if saves then Saved else if ends then Completed
                                                                 else seen.status, seen.index)))
  {
  }

  /** The row is written once, as the step left it, and the submission is over. */
  lemma WriteIs(flow: seq<StepKind>, s: State, w: nat, ok: bool)
    requires w < |s.workers| && s.workers[w].stage.Writing?
    ensures var t := Next(flow, s, Write(w, ok));
            && OnlyWorker(s, t, w) && t.workers[w].stage == Done && t.claims == s.claims && t.effects == s.effects
            && t.row == if ok then s.workers[w].stage.row else s.row
  {
  }

  lemma DoneIsOver(flow: seq<StepKind>, s: State, step: Step)
    requires !step.Submit? && (step.w < |s.workers| ==> s.workers[step.w].stage == Done)
    ensures Next(flow, s, step) == s
  {
  }
}

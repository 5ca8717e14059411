/** The loops of a fan-out round: gathering its steps, preparing them, and settling their outcomes. */
module FanoutRounds {
  import opened PlanModel
  import opened Aggregates
  import opened PlanOutcome
  import opened StepSelection
  import opened SessionKernel
  import opened BatchWrites

  method FanoutRoundForSelection(latest: seq<Step>, selected: Step, b: Budgets, systemNow: int) returns (round: Option<seq<Step>>)
    ensures round == FanoutRound(latest, selected, b, systemNow)
  {
    if !Tagged(selected) || selected.metadata.aggregateScope != TARGET_FANOUT {
      return None;
    }
    if selected.metadata.maxConcurrency.None? || selected.metadata.maxConcurrency.value <= 1 {
      return None;
    }
    var steps := [];
    for i := 0 to |latest|
      invariant RoundSteps(latest, selected, b, systemNow) == steps + RoundSteps(latest[i..], selected, b, systemNow)
    {
      assert latest[i..][1..] == latest[i+1..];
      if InRound(latest[i], selected, b, systemNow) {
        steps := steps + [latest[i]];
      }
    }
    assert latest[|latest|..] == [] && steps + [] == steps;
    return if |steps| <= 1 then None else Some(steps);
  }

  function After(done: seq<PreparedStep>, rest: Preparation): Preparation {
    if rest.Prepared? then Prepared(done + rest.steps) else rest
  }

  method PrepareFanoutRound(approvals: seq<Approval>, steps: seq<Step>, b: Budgets, a: Answers) returns (r: Preparation)
    ensures r == PrepareRound(approvals, steps, b, a)
  {
    var prepared := [];
    for i := 0 to |steps|
      invariant PrepareRound(approvals, steps, b, a) == After(prepared, PrepareRound(approvals, steps[i..], b, a))
    {
      var step := steps[i];
      assert steps[i..][0] == step && steps[i..][1..] == steps[i+1..];
      if Exhausted(step, b) {
        return PreparationFailed(StepRetryBudgetExceeded);
      }
      if !BackoffActive(step, a.now) {
        if a.stepRefused(step.stepID) {
          return PreparationFailed(Refused);
        }
        var (decision, basis) := DecisionFor(approvals, step, None, a);
        if decision.Ask? {
          return NotHandled;
        }
        ghost var rest := PrepareRound(approvals, steps[i+1..], b, a);
        assert rest.Prepared? ==>
            prepared + ([PreparedStep(step, decision, basis, a.scopeOf(step))] + rest.steps) == (prepared + [PreparedStep(step, decision, basis, a.scopeOf(step))]) + rest.steps;
        prepared := prepared + [PreparedStep(step, decision, basis, a.scopeOf(step))];
      }
    }
    return Prepared(prepared);
  }

  /** Whether some step is tagged with this aggregate: the aggregate results list it. */
  lemma AggregatesAreNamed(steps: seq<Step>) returns (ids: seq<string>)
    ensures |AggregatesOf(steps)| == |ids| && forall i :: 0 <= i < |ids| ==> AggregatesOf(steps)[i].aggregateID == ids[i]
    ensures forall id :: id in ids <==> exists m :: m in steps && MemberOf(m, id)
  {
    ids := FirstIDs(steps);
    FirstIDsAre(steps);
  }

  method FindAggregate(aggregates: seq<AggregateResult>, id: string, ghost ids: seq<string>) returns (found: bool)
    requires |aggregates| == |ids| && forall i :: 0 <= i < |ids| ==> aggregates[i].aggregateID == ids[i]
    ensures found <==> id in ids
  {
    for i := 0 to |aggregates|
      invariant forall j :: 0 <= j < i ==> ids[j] != id
    {
      if aggregates[i].aggregateID == id {
        return true;
      }
    }
    return false;
  }

  method AggregateKnown(steps: seq<Step>, id: string) returns (known: bool)
    ensures known <==> exists m :: m in steps && MemberOf(m, id)
  {
    var aggregates := AggregateResultsFromSteps(steps);
    ghost var ids := AggregatesAreNamed(steps);
    known := FindAggregate(aggregates, id, ids);
  }

  method SettleLast(latest: seq<Step>, ps: seq<PreparedStep>, outcomes: seq<Step>, last: Option<nat>, b: Budgets, a: Answers)
    returns (settled: seq<Step>)
    requires |ps| == |outcomes| && last == LastAggregateIndex(ps)
    ensures settled == SettleAggregate(latest, ps, outcomes, b, a)
  {
    settled := outcomes;
    if last.None? {
      return;
    }
    var s := outcomes[last.value];
    if !s.metadata.aggregateVerify || !Tagged(s) {
      return;
    }
    var provisional := ReplaceSteps(latest, outcomes);
    var ready := AggregateVerificationReady(provisional, s.metadata.aggregateID, b);
    var known := AggregateKnown(provisional, s.metadata.aggregateID);
    if ready && known {
      var verified := a.aggregateOK(s.stepID) && a.toolOK(s.stepID);
      var ran := s.(status := if verified then Completed else Failed);
      settled := outcomes[last.value := WithBackoff(ran, PhaseAfterStep(ran, verified, b), a.now)];
    }
  }

  /** What one more step adds to the outcomes, to the last aggregate-scoped step and to the failures. */
  lemma RoundGrows(ps: seq<PreparedStep>, i: nat, b: Budgets, a: Answers)
    requires i < |ps|
    ensures var outcome := RoundOutcome(ps[i], b, a);
            && RoundOutcomes(ps[..i+1], b, a) == RoundOutcomes(ps[..i], b, a) + [outcome]
            && LastAggregateIndex(ps[..i+1]) == (if !ps[i].decision.Deny? && ps[i].step.metadata.verifyAggregate then Some(i)
                                                 else LastAggregateIndex(ps[..i]))
            && CountRanAndFailed(ps[..i+1], RoundOutcomes(ps[..i], b, a) + [outcome])
               == CountRanAndFailed(ps[..i], RoundOutcomes(ps[..i], b, a))
                  + if !ps[i].decision.Deny? && outcome.status.Failed? then 1 else 0
  {
    assert ps[..i+1][..i] == ps[..i];
    assert (RoundOutcomes(ps[..i], b, a) + [RoundOutcome(ps[i], b, a)])[..i] == RoundOutcomes(ps[..i], b, a);
  }

  /** Finalises the outcomes one by one, then the last aggregate-scoped one with its aggregate. */
  method SettleRound(latest: seq<Step>, ps: seq<PreparedStep>, b: Budgets, a: Answers) returns (results: seq<Step>, retryFailures: nat)
    ensures results == RoundResults(latest, ps, b, a)
    ensures retryFailures == RetryFailures(ps, RoundOutcomes(ps, b, a), results)
  {
    var outcomes: seq<Step>, last: Option<nat> := [], None;
    retryFailures := 0;
    for i := 0 to |ps|
      invariant outcomes == RoundOutcomes(ps[..i], b, a)
      invariant last == LastAggregateIndex(ps[..i])
      invariant retryFailures == CountRanAndFailed(ps[..i], outcomes)
    {
      RoundGrows(ps, i, b, a);
      var outcome := RoundOutcome(ps[i], b, a);
      if !ps[i].decision.Deny? {
        if ps[i].step.metadata.verifyAggregate {
          last := Some(i);
        }
        if outcome.status.Failed? {
          retryFailures := retryFailures + 1;
        }
      }
      outcomes := outcomes + [outcome];
    }
    assert ps[..|ps|] == ps;
    results := SettleLast(latest, ps, outcomes, last, b, a);
    if last.Some? && !results[last.value].status.Completed? {
      retryFailures := retryFailures + 1;
    }
  }

  // ---- replacing a batch of steps ----

  /** Replacements by step id: the last one with an id wins. */
  method IndexByID(steps: seq<Step>) returns (index: map<string, Step>)
    ensures forall id :: id in index <==> FindLast(steps, id).Some?
    ensures forall id :: id in index ==> FindLast(steps, id) == Some(index[id])
  {
    index := map[];
    for i := 0 to |steps|
      invariant forall id :: id in index <==> FindLast(steps[..i], id).Some?
      invariant forall id :: id in index ==> FindLast(steps[..i], id) == Some(index[id])
    {
      assert steps[..i+1][..i] == steps[..i];
      index := index[steps[i].stepID := steps[i]];
    }
    assert steps[..|steps|] == steps;
  }

  /** Replaces in place: the array is the slice the caller's plan is made of. */
  method ReplacePlanSteps(target: array<Step>, steps: seq<Step>)
    modifies target
    ensures target[..] == ReplaceSteps(old(target[..]), steps)
  {
    var index := IndexByID(steps);
    for i := 0 to target.Length
      invariant forall j :: i <= j < target.Length ==> target[j] == old(target[j])
      invariant forall j :: 0 <= j < i ==> target[j] == ReplaceSteps(old(target[..]), steps)[j]
    {
      if target[i].stepID in index {
        target[i] := index[target[i].stepID];
      }
    }
  }

  /** A round rewrites the shared slice twice, for the provisional outcomes and for the settled ones. The plan it
      ends with is the one a single rewrite with the settled outcomes gives. */
  method ReplaceProvisionalThenSettled(target: array<Step>, provisional: seq<Step>, settled: seq<Step>)
    requires |provisional| == |settled| && forall i :: 0 <= i < |settled| ==> settled[i].stepID == provisional[i].stepID
    modifies target
    ensures target[..] == ReplaceSteps(old(target[..]), settled)
  {
    ReplacePlanSteps(target, provisional);
    SecondBatchWins(old(target[..]), provisional, settled);
    ReplacePlanSteps(target, settled);
  }
}

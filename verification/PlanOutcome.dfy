/** What the kernel concludes from a plan: go on, give up, or done. */
module PlanOutcome {
  import opened PlanModel
  import opened Aggregates

  datatype Verdict = GoOn | GiveUp | Done

  datatype Reason = NoReason | AbortingStepFailed | AggregateGaveUp | StepsRemaining | StepsRecoverable

  datatype Outcome = Outcome(verdict: Verdict, reason: Reason, aggregates: seq<AggregateResult>)

  // ---- the specification: no order, only which steps occur ----

  /** Every member of the aggregate failed, and none may be tried again. */
  ghost predicate AggregateLost(steps: seq<Step>, id: string, b: Budgets) {
    && (exists s :: s in steps && MemberOf(s, id))
    && forall s :: s in steps && MemberOf(s, id) ==> s.status.Failed? && Exhausted(s, b)
  }

  ghost predicate AllMembersFailed(steps: seq<Step>, id: string) {
    forall s :: s in steps && MemberOf(s, id) ==> s.status.Failed?
  }

  ghost predicate SomeMemberOpen(steps: seq<Step>, id: string) {
    exists s :: s in steps && MemberOf(s, id) && !s.status.Failed? && !s.status.Completed?
  }

  /** A failed step whose own `continue` strategy has used up its attempts. */
  predicate Spent(s: Step, b: Budgets) {
    s.status.Failed? && NormalizedOnFailStrategy(s).Continue? && Exhausted(s, b)
  }

  ghost predicate DoomsPlan(steps: seq<Step>, s: Step, b: Budgets) {
    && s.status.Failed?
    && (NormalizedOnFailStrategy(s).Abort?
        || (Spent(s, b) && Tagged(s) && AggregateLost(steps, s.metadata.aggregateID, b)))
  }

  ghost predicate KeepsPending(steps: seq<Step>, s: Step, b: Budgets) {
    Unfinished(s) || (Spent(s, b) && Tagged(s) && SomeMemberOpen(steps, s.metadata.aggregateID))
  }

  ghost predicate KeepsRecoverable(steps: seq<Step>, s: Step, b: Budgets) {
    && s.status.Failed?
    && match NormalizedOnFailStrategy(s)
       case Abort => false
       case Continue =>
         || !Exhausted(s, b)
         || (Tagged(s) && AllMembersFailed(steps, s.metadata.aggregateID) && !AggregateLost(steps, s.metadata.aggregateID, b))
       case _ => true
  }

  ghost predicate MustGiveUp(steps: seq<Step>, b: Budgets) {
    exists s :: s in steps && DoomsPlan(steps, s, b)
  }

  ghost predicate HasOpenWork(steps: seq<Step>, b: Budgets) {
    exists s :: s in steps && (KeepsPending(steps, s, b) || KeepsRecoverable(steps, s, b))
  }

  ghost function VerdictOf(steps: seq<Step>, b: Budgets): Verdict {
    if MustGiveUp(steps, b) then GiveUp else if HasOpenWork(steps, b) then GoOn else Done
  }

  /** The verdict depends on which steps occur, not on their order nor on repetition. */
  lemma VerdictIsOrderFree(steps: seq<Step>, other: seq<Step>, b: Budgets)
    requires forall s :: s in steps <==> s in other
    ensures VerdictOf(steps, b) == VerdictOf(other, b)
  {
    forall id ensures AggregateLost(steps, id, b) == AggregateLost(other, id, b)
                      && AllMembersFailed(steps, id) == AllMembersFailed(other, id)
                      && SomeMemberOpen(steps, id) == SomeMemberOpen(other, id) { }
    assert forall s :: DoomsPlan(steps, s, b) == DoomsPlan(other, s, b);
    assert forall s :: KeepsPending(steps, s, b) == KeepsPending(other, s, b);
    assert forall s :: KeepsRecoverable(steps, s, b) == KeepsRecoverable(other, s, b);
  }

  lemma VerdictIsPermutationInvariant(steps: seq<Step>, other: seq<Step>, b: Budgets)
    requires multiset(steps) == multiset(other)
    ensures VerdictOf(steps, b) == VerdictOf(other, b)
  {
    forall s ensures s in steps <==> s in other {
      assert s in steps <==> s in multiset(steps);
    }
    VerdictIsOrderFree(steps, other, b);
  }

  // ---- aggregate results, read back as statements about members ----

  lemma AggregateStatusMeans(steps: seq<Step>, id: string)
    requires id in FirstIDs(steps)
    ensures ResultFor(steps, id).status.AggregatePending? <==> SomeMemberOpen(steps, id)
    ensures ResultFor(steps, id).status.AggregateFailed? <==> AllMembersFailed(steps, id)
  {
    var ms := Members(steps, id);
    FirstIDsAre(steps);
    MembersAre(steps, id);
    CountsMean(ms);
    var s :| s in steps && MemberOf(s, id);
    assert s in ms;
    if AllMembersFailed(steps, id) {
      assert s.status.Failed?;
    }
  }

  method IndexInOrder(ghost ids: seq<string>, aggregates: seq<AggregateResult>) returns (byID: map<string, AggregateResult>)
    requires |ids| == |aggregates| && forall i :: 0 <= i < |ids| ==> aggregates[i].aggregateID == ids[i]
    requires forall i, j :: 0 <= i < j < |ids| ==> ids[i] != ids[j]
    ensures forall id :: id in byID <==> id in ids
    ensures forall i :: 0 <= i < |ids| ==> ids[i] in byID && byID[ids[i]] == aggregates[i]
  {
    byID := map[];
    for i := 0 to |aggregates|
      invariant forall id :: id in byID <==> id in ids[..i]
      invariant forall j :: 0 <= j < i ==> ids[j] in byID && byID[ids[j]] == aggregates[j]
    {
      assert ids[..i+1] == ids[..i] + [ids[i]];
      byID := byID[aggregates[i].aggregateID := aggregates[i]];
    }
    assert ids[..|aggregates|] == ids;
  }

  method IndexAggregates(ghost steps: seq<Step>, aggregates: seq<AggregateResult>) returns (byID: map<string, AggregateResult>)
    requires aggregates == AggregatesOf(steps)
    ensures forall id :: id in byID <==> id in FirstIDs(steps)
    ensures forall id :: id in byID && id in FirstIDs(steps) ==> byID[id] == ResultFor(steps, id)
  {
    FirstIDsAre(steps);
    byID := IndexInOrder(FirstIDs(steps), aggregates);
  }

  ghost predicate ExhaustedAsFailed(steps: seq<Step>, id: string, b: Budgets) {
    && (exists s :: s in steps && MemberOf(s, id))
    && forall s :: s in steps && MemberOf(s, id) ==>
         !Unfinished(s) && !s.status.Completed? && (s.status.Failed? ==> Exhausted(s, b))
  }

  /** The scan behind "this aggregate failed for good". */
  method AggregateExhaustedAsFailed(steps: seq<Step>, id: string, b: Budgets) returns (r: bool)
    ensures r <==> ExhaustedAsFailed(steps, id, b)
  {
    r := false;
    for i := 0 to |steps|
      invariant r <==> exists k :: 0 <= k < i && MemberOf(steps[k], id)
      invariant forall k :: 0 <= k < i && MemberOf(steps[k], id) ==>
                  !Unfinished(steps[k]) && !steps[k].status.Completed? && (steps[k].status.Failed? ==> Exhausted(steps[k], b))
    {
      var s := steps[i];
      if MemberOf(s, id) {
        assert s in steps;
        r := true;
        if Unfinished(s) || s.status.Completed? {
          return false;
        }
        if s.status.Failed? && !Exhausted(s, b) {
          return false;
        }
      }
    }
  }

  /** Whether aggregate-level verification may run: no member is unfinished or may be tried again. */
  method AggregateVerificationReady(steps: seq<Step>, id: string, b: Budgets) returns (r: bool)
    ensures r <==> VerificationReady(steps, id, b)
  {
    for i := 0 to |steps|
      invariant forall k :: 0 <= k < i && MemberOf(steps[k], id) ==>
                  !Unfinished(steps[k]) && (steps[k].status.Failed? ==> Exhausted(steps[k], b))
    {
      var s := steps[i];
      if MemberOf(s, id) {
        assert s in steps;
        if Unfinished(s) || (s.status.Failed? && !Exhausted(s, b)) {
          return false;
        }
      }
    }
    return true;
  }

  ghost predicate VerificationReady(steps: seq<Step>, id: string, b: Budgets) {
    forall s :: s in steps && MemberOf(s, id) ==> !Unfinished(s) && (s.status.Failed? ==> Exhausted(s, b))
  }

  /** Giving an aggregate up means: it has members, they are ready for verification, and none completed. */
  lemma ExhaustedIffReadyWithoutSuccess(steps: seq<Step>, id: string, b: Budgets)
    ensures ExhaustedAsFailed(steps, id, b) <==>
              && id in FirstIDs(steps) && VerificationReady(steps, id, b)
              && forall s :: s in steps && MemberOf(s, id) ==> !s.status.Completed?
  {
    FirstIDsAre(steps);
  }

  // ---- the computation ----

  /** What the step loop has learnt from the steps before `i`. */
  ghost predicate Scanned(steps: seq<Step>, b: Budgets, i: nat, pending: bool, recoverable: bool)
    requires i <= |steps|
  {
    && (forall k :: 0 <= k < i ==> !DoomsPlan(steps, steps[k], b))
    && (pending <==> exists k :: 0 <= k < i && KeepsPending(steps, steps[k], b))
    && (recoverable <==> exists k :: 0 <= k < i && KeepsRecoverable(steps, steps[k], b))
  }

  datatype Finding = Nothing | FoundPending | FoundRecoverable | FoundAbort | FoundLostAggregate

  lemma LostIsExhausted(steps: seq<Step>, id: string, b: Budgets)
    requires AllMembersFailed(steps, id)
    ensures AggregateLost(steps, id, b) <==> ExhaustedAsFailed(steps, id, b)
  {
  }

  method ClassifySpent(steps: seq<Step>, byID: map<string, AggregateResult>, s: Step, b: Budgets) returns (f: Finding)
    requires s in steps && Spent(s, b) && Tagged(s)
    requires s.metadata.aggregateID in byID <==> s.metadata.aggregateID in FirstIDs(steps)
    requires forall id :: id in byID && id in FirstIDs(steps) ==> byID[id] == ResultFor(steps, id)
    ensures f.FoundLostAggregate? <==> AggregateLost(steps, s.metadata.aggregateID, b)
    ensures f.FoundPending? <==> SomeMemberOpen(steps, s.metadata.aggregateID)
    ensures f.FoundRecoverable? <==> AllMembersFailed(steps, s.metadata.aggregateID) && !AggregateLost(steps, s.metadata.aggregateID, b)
    ensures !f.FoundAbort?
  {
    var id := s.metadata.aggregateID;
    assert MemberOf(s, id);
    FirstIDsAre(steps);
    AggregateStatusMeans(steps, id);
    f := Nothing;
    if byID[id].status.AggregateFailed? {
      var lost := AggregateExhaustedAsFailed(steps, id, b);
      LostIsExhausted(steps, id, b);
      f := if lost then FoundLostAggregate else FoundRecoverable;
    } else if byID[id].status.AggregatePending? {
      f := FoundPending;
    }
  }

  method ClassifyStep(steps: seq<Step>, byID: map<string, AggregateResult>, s: Step, b: Budgets) returns (f: Finding)
    requires s in steps
    requires forall id :: id in byID <==> id in FirstIDs(steps)
    requires forall id :: id in byID && id in FirstIDs(steps) ==> byID[id] == ResultFor(steps, id)
    ensures f.FoundAbort? || f.FoundLostAggregate? <==> DoomsPlan(steps, s, b)
    ensures f.FoundAbort? <==> s.status.Failed? && NormalizedOnFailStrategy(s).Abort?
    ensures f.FoundPending? <==> KeepsPending(steps, s, b)
    ensures f.FoundRecoverable? <==> KeepsRecoverable(steps, s, b)
  {
    f := Nothing;
    if Unfinished(s) {
      f := FoundPending;
    } else if s.status.Failed? {
      match NormalizedOnFailStrategy(s)
      case Abort =>
        f := FoundAbort;
      case Continue =>
        if s.attempt < AllowedAttempts(s, b) {
          f := FoundRecoverable;
        } else if Tagged(s) {
          f := ClassifySpent(steps, byID, s, b);
        }
      case _ =>
        f := FoundRecoverable;
    }
  }

  /** Once the step loop has found neither a reason to give up nor open work, no aggregate is left that failed. */
  lemma NoAggregateFailedAfterScan(steps: seq<Step>, b: Budgets, id: string)
    requires Scanned(steps, b, |steps|, false, false) && id in FirstIDs(steps)
    ensures !ResultFor(steps, id).status.AggregateFailed?
  {
    AggregateStatusMeans(steps, id);
    FirstIDsAre(steps);
    var s :| s in steps && MemberOf(s, id);
    var k :| 0 <= k < |steps| && steps[k] == s;
    assert !KeepsRecoverable(steps, steps[k], b) && !DoomsPlan(steps, steps[k], b);
  }

  /** The closing sweep over the aggregates: it never decides anything. */
  method FinalSweep(steps: seq<Step>, aggregates: seq<AggregateResult>, b: Budgets) returns (fired: bool)
    requires aggregates == AggregatesOf(steps)
    requires Scanned(steps, b, |steps|, false, false)
    ensures !fired
  {
    fired := false;
    for i := 0 to |aggregates|
      invariant !fired
    {
      NoAggregateFailedAfterScan(steps, b, FirstIDs(steps)[i]);
      var lost := AggregateExhaustedAsFailed(steps, aggregates[i].aggregateID, b);
      fired := fired || (aggregates[i].status.AggregateFailed? && lost);
    }
  }

  method PlanExecutionOutcomeForSpec(steps: seq<Step>, b: Budgets) returns (o: Outcome)
    ensures o.verdict == VerdictOf(steps, b)
    ensures o.aggregates == AggregatesOf(steps)
    ensures o.verdict.GiveUp? <==> o.reason.AbortingStepFailed? || o.reason.AggregateGaveUp?
    ensures o.reason.AbortingStepFailed? ==> exists s :: s in steps && s.status.Failed? && NormalizedOnFailStrategy(s).Abort?
    ensures o.reason.AggregateGaveUp? ==> exists s :: s in steps && Spent(s, b) && AggregateLost(steps, s.metadata.aggregateID, b)
    ensures o.reason.StepsRemaining? <==> o.verdict.GoOn? && exists s :: s in steps && KeepsPending(steps, s, b)
    ensures o.reason.StepsRecoverable? <==> o.verdict.GoOn? && !exists s :: s in steps && KeepsPending(steps, s, b)
    ensures o.reason.NoReason? <==> o.verdict.Done?
  {
    var aggregates := AggregateResultsFromSteps(steps);
    var byID := IndexAggregates(steps, aggregates);
    var pending, recoverable := false, false;
    for i := 0 to |steps|
      invariant Scanned(steps, b, i, pending, recoverable)
    {
      assert steps[i] in steps;
      var f := ClassifyStep(steps, byID, steps[i], b);
      match f
      case FoundAbort =>
        return Outcome(GiveUp, AbortingStepFailed, aggregates);
      case FoundLostAggregate =>
        return Outcome(GiveUp, AggregateGaveUp, aggregates);
      case FoundPending =>
        pending := true;
      case FoundRecoverable =>
        recoverable := true;
      case Nothing =>
    }
    if pending {
      return Outcome(GoOn, StepsRemaining, aggregates);
    }
    if recoverable {
      return Outcome(GoOn, StepsRecoverable, aggregates);
    }
    var fired := FinalSweep(steps, aggregates, b);
    return if fired then Outcome(GiveUp, AggregateGaveUp, aggregates) else Outcome(Done, NoReason, aggregates);
  }

  function PlanStatusFor(v: Verdict): PlanStatus {
    match v
    case GiveUp => PlanFailed
    case GoOn => Active
    case Done => PlanCompleted
  }
}

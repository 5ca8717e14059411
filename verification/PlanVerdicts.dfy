/** The verdict on a plan, read off the statuses of its steps. */
module PlanVerdicts {
  import opened PlanModel
  import opened Aggregates
  import opened PlanOutcome
  import opened StepCalls

  predicate Open(s: Step) {
    s.status == Unset || s.status == Pending || s.status == Running || s.status == Blocked
  }

  predicate InAggregate(s: Step, id: string) {
    id != "" && s.metadata.aggregateID == id
  }

  /** Failed, with no attempt left. */
  predicate FailedForGood(s: Step, b: Budgets) {
    s.status == Failed && OutOfAttempts(s, b)
  }

  /** Failed in a way that ends the plan: by its strategy, or as one of an aggregate of which all failed for good. */
  ghost predicate EndsPlan(steps: seq<Step>, s: Step, b: Budgets) {
    && s.status == Failed
    && (s.onFail.strategy == "abort"
        || (s.onFail.strategy == "continue" && s.metadata.aggregateID != ""
            && forall m :: m in steps && InAggregate(m, s.metadata.aggregateID) ==> FailedForGood(m, b)))
  }

  /** Nothing more is to be done about it: it is not open, and if it failed it goes on past that, has no attempt left, and
      of its aggregate, if it is of one, all have failed or completed, and one has completed. */
  ghost predicate DoneWith(steps: seq<Step>, s: Step, b: Budgets) {
    && !Open(s)
    && (s.status == Failed ==>
          && s.onFail.strategy == "continue" && OutOfAttempts(s, b)
          && (s.metadata.aggregateID != "" ==>
                && (forall m :: m in steps && InAggregate(m, s.metadata.aggregateID) ==> m.status == Failed || m.status == Completed)
                && (exists m :: m in steps && InAggregate(m, s.metadata.aggregateID) && m.status == Completed)))
  }

  lemma MembersRead(steps: seq<Step>, s: Step, b: Budgets)
    requires s in steps && s.status == Failed && OutOfAttempts(s, b) && s.metadata.aggregateID != ""
    ensures AggregateLost(steps, s.metadata.aggregateID, b) <==>
              forall m :: m in steps && InAggregate(m, s.metadata.aggregateID) ==> FailedForGood(m, b)
    ensures SomeMemberOpen(steps, s.metadata.aggregateID) <==>
              !forall m :: m in steps && InAggregate(m, s.metadata.aggregateID) ==> m.status == Failed || m.status == Completed
    ensures AllMembersFailed(steps, s.metadata.aggregateID) <==>
              forall m :: m in steps && InAggregate(m, s.metadata.aggregateID) ==> m.status == Failed
  {
    var id := s.metadata.aggregateID;
    forall m: Step ensures FailedForGood(m, b) <==> m.status.Failed? && Exhausted(m, b) {
      OutOfAttemptsIs(m, b);
    }
    forall m: Step ensures MemberOf(m, id) <==> InAggregate(m, id) { }
    assert MemberOf(s, id);
  }

  lemma EndsIs(steps: seq<Step>, s: Step, b: Budgets)
    requires s in steps
    ensures DoomsPlan(steps, s, b) <==> EndsPlan(steps, s, b)
  {
    OutOfAttemptsIs(s, b);
    if s.status == Failed && s.metadata.aggregateID != "" {
      if OutOfAttempts(s, b) {
        MembersRead(steps, s, b);
      } else {
        assert InAggregate(s, s.metadata.aggregateID) && !FailedForGood(s, b);
      }
    }
  }

  lemma DoneWithIs(steps: seq<Step>, s: Step, b: Budgets)
    requires s in steps
    ensures !DoomsPlan(steps, s, b) && !KeepsPending(steps, s, b) && !KeepsRecoverable(steps, s, b) <==> DoneWith(steps, s, b)
  {
    OutOfAttemptsIs(s, b);
    if s.status == Failed && s.onFail.strategy == "continue" && OutOfAttempts(s, b) && s.metadata.aggregateID != "" {
      MembersRead(steps, s, b);
    }
  }

  /** A plan is given up exactly when a step ends it, done exactly when all its steps are done with, and else goes on. */
  lemma VerdictMeans(steps: seq<Step>, b: Budgets)
    ensures VerdictOf(steps, b).GiveUp? <==> exists s :: s in steps && EndsPlan(steps, s, b)
    ensures VerdictOf(steps, b).Done? <==> forall s :: s in steps ==> DoneWith(steps, s, b)
  {
    forall s | s in steps
      ensures DoomsPlan(steps, s, b) <==> EndsPlan(steps, s, b)
      ensures !DoomsPlan(steps, s, b) && !KeepsPending(steps, s, b) && !KeepsRecoverable(steps, s, b) <==> DoneWith(steps, s, b)
    {
      EndsIs(steps, s, b);
      DoneWithIs(steps, s, b);
    }
  }

  /** An aggregate may be verified exactly when none of it is open, and what failed failed for good. */
  lemma ReadyMeans(steps: seq<Step>, id: string, b: Budgets)
    ensures VerificationReady(steps, id, b) <==>
              forall m :: m in steps && InAggregate(m, id) ==> !Open(m) && (m.status == Failed ==> FailedForGood(m, b))
  {
    forall m: Step ensures (m.status == Failed ==> FailedForGood(m, b)) <==> (m.status.Failed? ==> Exhausted(m, b)) {
      OutOfAttemptsIs(m, b);
    }
    forall m: Step ensures MemberOf(m, id) <==> InAggregate(m, id) { }
  }

  /** The status a plan is stored with. */
  lemma StatusMeans(steps: seq<Step>, b: Budgets)
    ensures var status := PlanStatusFor(VerdictOf(steps, b));
            && (status.PlanFailed? <==> exists s :: s in steps && EndsPlan(steps, s, b))
            && (status.PlanCompleted? <==> forall s :: s in steps ==> DoneWith(steps, s, b))
  {
    VerdictMeans(steps, b);
  }
}

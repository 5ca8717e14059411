/** What running one step does, told by what can be seen of it from outside: when it faults and with what, when the
    tool is invoked and on whose word, and what it leaves in every store. */
module StepCalls {
  import opened PlanModel
  import opened Aggregates
  import opened PlanOutcome
  import opened StepSelection
  import opened SessionKernel

  // ---- when a step is not run ----

  predicate Over(s: Session) {
    s.phase.Complete? || s.phase.PhaseFailed? || s.phase.PhaseAborted?
  }

  /** The session waits for an answer, and not for this one. */
  predicate WaitsForOther(s: Session, forced: Option<Grant>) {
    match forced
    case None => s.pendingApproval.Some?
    case Some(g) => s.pendingApproval.Some? && s.pendingApproval != Some(g.id)
  }

  predicate Late(s: Session, b: Budgets, now: int) {
    b.maxTotalRuntimeMS > 0 && s.runtimeStartedAt != 0 && now > s.runtimeStartedAt + b.maxTotalRuntimeMS
  }

  /** No attempt is left: one is always allowed, and as many more as the least positive of the two retry caps says. */
  predicate OutOfAttempts(step: Step, b: Budgets) {
    && step.attempt >= 1
    && (b.maxRetriesPerStep > 0 || step.onFail.maxRetries > 0 ==>
          || (b.maxRetriesPerStep > 0 && step.attempt > b.maxRetriesPerStep)
          || (step.onFail.maxRetries > 0 && step.attempt > step.onFail.maxRetries))
  }

  predicate HeldBack(step: Step, now: int) {
    match step.metadata.retryNotBefore
    case None => false
    case Some(time) => now < time
  }

  lemma OutOfAttemptsIs(step: Step, b: Budgets)
    ensures OutOfAttempts(step, b) <==> Exhausted(step, b)
  {
  }

  predicate MayWork(s: Session, forced: Option<Grant>, b: Budgets, now: int) {
    !Over(s) && !s.execution.ExecutionBlocked? && !WaitsForOther(s, forced) && !Late(s, b, now)
  }

  /** Which fault, exactly when: the first reason in this order. */
  lemma StepFaults(w: World, given: Step, forced: Option<Grant>, b: Budgets, a: Answers)
    ensures var r, s := RunStepWithDecision(w, given, forced, b, a), w.session;
            && (r == Err(SessionTerminal) <==> Over(s))
            && (r == Err(SessionBlocked) <==> !Over(s) && s.execution.ExecutionBlocked?)
            && (r == Err(SessionAwaitingApproval) <==> !Over(s) && !s.execution.ExecutionBlocked? && WaitsForOther(s, forced))
            && (r == Err(RuntimeBudgetExceeded) <==>
                  !Over(s) && !s.execution.ExecutionBlocked? && !WaitsForOther(s, forced) && Late(s, b, a.now))
            && (r == Err(StepRetryBudgetExceeded) <==> MayWork(s, forced, b, a.now) && OutOfAttempts(given, b))
            && (r == Err(StepBackoffActive) <==>
                  MayWork(s, forced, b, a.now) && !OutOfAttempts(given, b) && HeldBack(given, a.now))
            && (r == Err(Refused) <==>
                  MayWork(s, forced, b, a.now) && !OutOfAttempts(given, b) && !HeldBack(given, a.now) && a.stepRefused(given.stepID))
            && (r.Ok? <==>
                  MayWork(s, forced, b, a.now) && !OutOfAttempts(given, b) && !HeldBack(given, a.now) && !a.stepRefused(given.stepID))
  {
    OutOfAttemptsIs(given, b);
  }

  // ---- whose word it takes ----

  /** An approval that was given for good, for steps of this scope. */
  predicate StandingFor(approvals: seq<Approval>, id: nat, scope: string) {
    id < |approvals| && approvals[id].status == Approved && approvals[id].reply == Always && approvals[id].scope == scope
  }

  ghost predicate HasStanding(approvals: seq<Approval>, scope: string) {
    exists id: nat :: StandingFor(approvals, id, scope)
  }

  /** A step that names no plan is taken for one of the plan the session works on. */
  predicate TakenFor(step: Step, given: Step, s: Session) {
    step == given.(planID := step.planID) && step.planID == if given.planID == 0 then s.planRef else given.planID
  }

  /** The one tool that was invoked, for this step and on this word. */
  predicate Invokes(w: World, v: World, step: Step, basis: Basis, a: Answers) {
    && |v.log| == |w.log| + 1 && v.log[..|w.log|] == w.log
    && var inv := v.log[|w.log|];
       inv.planID == step.planID && inv.stepID == step.stepID && inv.scope == a.scopeOf(step) && inv.basis == basis
  }

  lemma StepAsTaken(w: World, given: Step) returns (step: Step)
    ensures TakenFor(step, given, w.session) && step == AnnotateStep(given, w.session.planRef)
  {
    step := AnnotateStep(given, w.session.planRef);
  }

  lemma FoundStands(approvals: seq<Approval>, scope: string)
    ensures FindReusable(approvals, scope).Some? <==> HasStanding(approvals, scope)
    ensures FindReusable(approvals, scope).Some? ==> StandingFor(approvals, FindReusable(approvals, scope).value, scope)
  {
    if FindReusable(approvals, scope).Some? {
      assert StandingFor(approvals, FindReusable(approvals, scope).value, scope);
    }
  }

  /** A step that runs without a grant of its own. Its tool is invoked if the policy allows it, or asks and a standing
      approval of the step's own scope is there, which is then the word it runs on; it is parked and asked about if the
      policy asks and none is there; otherwise it is denied. */
  lemma StepDecided(w: World, given: Step, b: Budgets, a: Answers) returns (step: Step, basis: Basis)
    requires RunStepWithDecision(w, given, None, b, a).Ok?
    ensures TakenFor(step, given, w.session)
    ensures var v := RunStepWithDecision(w, given, None, b, a).value;
            match a.policy(given.stepID)
            case Allow => basis == PolicyAllowed && Invokes(w, v, step, basis, a) && Executes(w, v, step, basis, b, a)
            case Deny => v.log == w.log && v.approvals == w.approvals && Denies(w, v, step, b)
            case Ask =>
              if HasStanding(w.approvals, a.scopeOf(step))
              then && basis.ByApproval? && StandingFor(w.approvals, basis.id, a.scopeOf(step))
                   && Invokes(w, v, step, basis, a) && Executes(w, v, step, basis, b, a)
              else v.log == w.log && Asks(w, v, step, b, a)
  {
    step := StepAsTaken(w, given);
    basis := DecisionFor(w.approvals, step, None, a).1;
    var v := RunStepWithDecision(w, given, None, b, a).value;
    FoundStands(w.approvals, a.scopeOf(step));
    StepLeaves(w, v, step, DecisionFor(w.approvals, step, None, a).0, basis, b, a);
  }

  /** A step that runs on a grant runs on that, whatever the policy says now. */
  lemma StepForced(w: World, given: Step, grant: Grant, b: Budgets, a: Answers) returns (step: Step)
    requires RunStepWithDecision(w, given, Some(grant), b, a).Ok? && !grant.decision.Ask?
    ensures TakenFor(step, given, w.session)
    ensures var v := RunStepWithDecision(w, given, Some(grant), b, a).value;
            if grant.decision.Allow? then Invokes(w, v, step, ByApproval(grant.id), a) && Executes(w, v, step, ByApproval(grant.id), b, a)
            else v.log == w.log && v.approvals == w.approvals && Denies(w, v, step, b)
  {
    step := StepAsTaken(w, given);
    var v := RunStepWithDecision(w, given, Some(grant), b, a).value;
    StepLeaves(w, v, step, grant.decision, ByApproval(grant.id), b, a);
  }

  lemma StepLeaves(w: World, v: World, step: Step, decision: Decision, basis: Basis, b: Budgets, a: Answers)
    requires !Over(w.session)
    requires v == match decision
                  case Ask => AskFor(w, step, b, a)
                  case Deny => DenyStep(w, step, b)
                  case Allow => ExecuteStep(w, step, basis, b, a)
    ensures match decision
            case Ask => v.log == w.log && Asks(w, v, step, b, a)
            case Deny => v.log == w.log && v.approvals == w.approvals && Denies(w, v, step, b)
            case Allow => Invokes(w, v, step, basis, a) && Executes(w, v, step, basis, b, a)
  {
    match decision
    case Ask => AskLeaves(w, step, b, a);
    case Deny =>
    case Allow => ExecuteLeaves(w, step, basis, b, a);
  }

  // ---- what it leaves when it asks or is denied ----

  /** Of the session, all but what the call says it changes. */
  predicate SameButWork(s: Session, t: Session) {
    t.blockedRuntime == s.blockedRuntime && t.interruptedAt == s.interruptedAt
  }

  /** The step is parked; a fresh record, for it and its scope, waits for an answer, and so does the session. */
  ghost predicate Asks(w: World, v: World, step: Step, b: Budgets, a: Answers) {
    var id := |w.approvals|;
    && v.blocked == w.blocked && |v.approvals| == id + 1 && v.approvals[..id] == w.approvals
    && v.approvals[id].status.ApprovalPending? && v.approvals[id].reply.NoReply?
    && v.approvals[id].stepID == step.stepID && v.approvals[id].toolName == step.toolName
    && v.approvals[id].step == step.(status := Blocked) && v.approvals[id].scope == a.scopeOf(step)
    && v.session.pendingApproval == Some(id) && v.session.execution.AwaitingApproval? && v.session.phase.Execute?
    && v.session.currentStep == step.stepID && v.session.inFlightStep == w.session.inFlightStep
    && v.session.planRef == (if step.planID == 0 then w.session.planRef else step.planID)
    && v.session.runtimeStartedAt == w.session.runtimeStartedAt && v.session.retryCount == w.session.retryCount
    && SameButWork(w.session, v.session)
    && v.plans == WriteStep(w.plans, step.(status := Blocked), b)
  }

  lemma AskLeaves(w: World, step: Step, b: Budgets, a: Answers)
    requires !Over(w.session)
    ensures var v := AskFor(w, step, b, a); v.log == w.log && Asks(w, v, step, b, a)
  {
    EveryOpenPhaseReachesExecute(w.session.phase);
  }

  /** The step has failed, an attempt on, and the session with it. */
  ghost predicate Denies(w: World, v: World, step: Step, b: Budgets) {
    && v.blocked == w.blocked
    && v.session.phase.PhaseFailed? && v.session.execution.Idle? && v.session.inFlightStep == ""
    && v.session.currentStep == (if step.stepID == "" then w.session.currentStep else step.stepID)
    && v.session.planRef == (if step.planID == 0 then w.session.planRef else step.planID)
    && v.session.pendingApproval == w.session.pendingApproval
    && v.session.runtimeStartedAt == w.session.runtimeStartedAt && v.session.retryCount == w.session.retryCount
    && SameButWork(w.session, v.session)
    && v.plans == WriteStep(w.plans, step.(attempt := step.attempt + 1, status := Failed), b)
  }

  // ---- the plan a session works on ----

  ghost predicate Knows(p: Plan, id: string) {
    exists i :: 0 <= i < |p.steps| && p.steps[i].stepID == id
  }

  /** The plan a step with this id is of, as plan `p` knows it. */
  ghost predicate NamedBy(p: Plan, id: string, planID: nat) {
    exists i: nat :: i < |p.steps| && p.steps[i].stepID == id && (forall j :: 0 <= j < i ==> p.steps[j].stepID != id)
                     && planID == if p.steps[i].planID == 0 then p.planID else p.steps[i].planID
  }

  /** The plan a session works on once it is at this step: as the plan it is pinned to names it, if it remembers a step and
      that plan knows the id; else as its latest does; else as before. */
  ghost predicate Refers(s: Session, plans: seq<Plan>, id: string, ref: nat) {
    var pinned := (s.inFlightStep != "" || s.currentStep != "") && 0 < s.planRef <= |plans|;
    if id == "" then ref == s.planRef
    else if pinned && Knows(plans[s.planRef-1], id) then
      NamedBy(plans[s.planRef-1], id, ref)
    else if HasPlan(plans) && Knows(plans[|plans|-1], id) then
      NamedBy(plans[|plans|-1], id, ref)
    else ref == s.planRef
  }

  lemma IdentityNames(p: Plan, id: string)
    ensures match IdentityIn(p, id)
            case Some(planID) => NamedBy(p, id, planID) && Knows(p, id)
            case None => !Knows(p, id)
  {
    match FindStep(p.steps, id)
    case Some(i) => assert p.steps[i].stepID == id;
    case None =>
  }

  lemma MarkRefers(s: Session, plans: seq<Plan>, id: string, now: int)
    ensures var t := MarkInFlight(s, plans, id, now);
            && t == s.(execution := InFlight, inFlightStep := id, planRef := t.planRef,
                       runtimeStartedAt := if s.runtimeStartedAt == 0 then now else s.runtimeStartedAt)
            && Refers(s, plans, id, t.planRef)
  {
    if 0 < s.planRef <= |plans| {
      IdentityNames(plans[s.planRef-1], id);
    }
    if HasPlan(plans) {
      IdentityNames(plans[|plans|-1], id);
    }
  }

  // ---- what storing a step leaves ----

  /** The plan a step is kept in: the one it names, whichever session it is of, else the session's latest. */
  predicate HomeOf(plans: seq<Plan>, planID: nat, k: nat) {
    k < |plans| && if 0 < planID <= |plans| then k == planID - 1 else plans[|plans|-1].own && k == |plans| - 1
  }

  predicate FirstNamed(steps: seq<Step>, id: string, i: nat) {
    i < |steps| && steps[i].stepID == id && forall j :: 0 <= j < i ==> steps[j].stepID != id
  }

  /** The step stands where the first with its id stood, of that plan if it named none, and the plan's status is what its
      steps now say; no other step or plan has changed. */
  ghost predicate Written(plans: seq<Plan>, after: seq<Plan>, step: Step, b: Budgets) {
    && |after| == |plans|
    && forall k :: 0 <= k < |plans| ==>
         if HomeOf(plans, step.planID, k) && Knows(plans[k], step.stepID) then
           && after[k] == plans[k].(steps := after[k].steps, status := after[k].status)
           && |after[k].steps| == |plans[k].steps|
           && (forall i :: 0 <= i < |plans[k].steps| ==>
                 after[k].steps[i] == if FirstNamed(plans[k].steps, step.stepID, i)
                                      then step.(planID := if step.planID == 0 then plans[k].planID else step.planID)
                                      else plans[k].steps[i])
           && after[k].status == match VerdictOf(after[k].steps, b)
                                 case Done => PlanCompleted
                                 case GiveUp => PlanFailed
                                 case GoOn => Active
         else after[k] == plans[k]
  }

  lemma StepWritten(plans: seq<Plan>, step: Step, b: Budgets)
    ensures Written(plans, WriteStep(plans, step, b), step, b)
  {
    var after := WriteStep(plans, step, b);
    forall k | 0 <= k < |plans| && HomeOf(plans, step.planID, k) && Knows(plans[k], step.stepID)
      ensures FindStep(plans[k].steps, step.stepID).Some? && k == PlanIndex(plans, step.planID) { }
    forall k | 0 <= k < |plans| && HomeOf(plans, step.planID, k)
      ensures FindStep(plans[k].steps, step.stepID).Some? ==> Knows(plans[k], step.stepID)
    {
      var found := FindStep(plans[k].steps, step.stepID);
      assert found.Some? ==> plans[k].steps[found.value].stepID == step.stepID;
    }
    forall k, i | 0 <= k < |plans| && HomeOf(plans, step.planID, k) && Knows(plans[k], step.stepID) && 0 <= i < |plans[k].steps|
      ensures |after[k].steps| == |plans[k].steps|
      ensures after[k].steps[i] == if FirstNamed(plans[k].steps, step.stepID, i)
                                   then step.(planID := if step.planID == 0 then plans[k].planID else step.planID)
                                   else plans[k].steps[i]
    {
      ReplacesFirst(plans[k].steps, AnnotateStep(step, plans[k].planID), i);
    }
  }

  // ---- what it leaves when the tool ran ----

  /** Whether the run counts as a success. A step with a verifier of its own counts by that. One that is verified with
      its aggregate needs its own success, and if it is the one whose aggregate is now in, the aggregate's too. */
  ghost predicate Succeeded(w: World, step: Step, b: Budgets, a: Answers) {
    var id := step.stepID;
    if step.metadata.verifyAggregate
    then !a.toolFailed(id) && a.toolOK(id) && (AggregateIsIn(w, step, b) ==> a.aggregateOK(id))
    else a.verifierOK(id)
  }

  /** With this step completed, the aggregate has members in the latest plan, and all of them are done with. */
  ghost predicate AggregateIsIn(w: World, step: Step, b: Budgets) {
    && step.metadata.aggregateVerify && step.metadata.aggregateID != "" && HasPlan(w.plans)
    && var steps := ReplaceStep(LatestSteps(w.plans), step.(attempt := step.attempt + 1, status := Completed));
       && (exists m :: m in steps && MemberOf(m, step.metadata.aggregateID))
       && VerificationReady(steps, step.metadata.aggregateID, b)
  }

  /** What is stored of the step: it has succeeded or failed, an attempt on, and is held back before it is tried again. */
  ghost predicate Stored(w: World, v: World, step: Step, stored: Step, b: Budgets, a: Answers) {
    && stored == step.(attempt := step.attempt + 1, status := stored.status, metadata := stored.metadata)
    && stored.metadata == step.metadata.(retryNotBefore := stored.metadata.retryNotBefore)
    && stored.status == (if Succeeded(w, step, b, a) then Completed else Failed)
    && stored.metadata.retryNotBefore
       == (if (v.session.phase.Recover? || v.session.phase.Prepare?) && step.onFail.backoffMS > 0
           then Some(a.now + step.onFail.backoffMS) else None)
    && v.plans == WriteStep(w.plans, stored, b)
  }

  /** A once-given approval is used up; the records are otherwise as they were. */
  predicate UsesUp(approvals: seq<Approval>, after: seq<Approval>, basis: Basis) {
    && |after| == |approvals|
    && forall i :: 0 <= i < |approvals| ==>
         after[i] == if basis == ByApproval(i) && approvals[i].reply.Once? then approvals[i].(status := Consumed) else approvals[i]
  }

  ghost predicate Executes(w: World, v: World, step: Step, basis: Basis, b: Budgets, a: Answers) {
    && v.blocked == w.blocked && UsesUp(w.approvals, v.approvals, basis)
    && (exists stored :: Stored(w, v, step, stored, b, a))
    && v.session.execution.Idle? && v.session.inFlightStep == ""
    && v.session.currentStep == (if step.stepID == "" then w.session.currentStep else step.stepID)
    && v.session.runtimeStartedAt == (if w.session.runtimeStartedAt == 0 then a.now else w.session.runtimeStartedAt)
    && v.session.retryCount == w.session.retryCount + (if Succeeded(w, step, b, a) then 0 else 1)
    && v.session.pendingApproval
       == (if basis.ByApproval? && w.session.pendingApproval == Some(basis.id) then None else w.session.pendingApproval)
    && Refers(w.session, w.plans, step.stepID, v.session.planRef)
    && SameButWork(w.session, v.session)
    && LeadsTo(w, v.session.phase, step, b, a)
  }

  /** Where the session goes: on success, and when a step that continues has no attempt left, where the latest plan
      leads, with this run in it; else to another attempt while there is one, by way of recovery or of another look,
      and to a new plan or to failure when its strategy says so or none is left. */
  ghost predicate LeadsTo(w: World, phase: Phase, step: Step, b: Budgets, a: Answers) {
    var last := OutOfAttempts(step.(attempt := step.attempt + 1), b);
    var ran := step.(attempt := step.attempt + 1, status := if Succeeded(w, step, b, a) then Completed else Failed);
    if Succeeded(w, step, b, a) then
      phase == if HasPlan(w.plans) then PhaseOf(VerdictOf(ReplaceStep(LatestSteps(w.plans), ran), b)) else Complete
    else match step.onFail.strategy
      case "abort" => phase == PhaseFailed
      case "replan" => phase == Planning
      case "reinspect" => phase == if last then PhaseFailed else Prepare
      case "continue" =>
        phase == if !last then Recover
                 else if HasPlan(w.plans) then PhaseOf(VerdictOf(ReplaceStep(LatestSteps(w.plans), ran), b))
                 else Planning
      case _ => phase == if last then PhaseFailed else Recover
  }

  function PhaseOf(v: Verdict): Phase {
    match v
    case Done => Complete
    case GiveUp => PhaseFailed
    case GoOn => Planning
  }

  lemma SuccessIs(w: World, step: Step, b: Budgets, a: Answers)
    ensures Ran(w, step, b, a) == step.(attempt := step.attempt + 1, status := if Succeeded(w, step, b, a) then Completed else Failed)
  {
  }

  lemma PhaseLeads(w: World, step: Step, b: Budgets, a: Answers)
    ensures var ran := Ran(w, step, b, a);
            LeadsTo(w, PhaseAfter(Latest(w.plans), ran, ran.status.Completed?, b), step, b, a)
  {
    SuccessIs(w, step, b, a);
    OutOfAttemptsIs(Ran(w, step, b, a), b);
  }

  lemma ExecuteLeaves(w: World, step: Step, basis: Basis, b: Budgets, a: Answers)
    ensures var v := ExecuteStep(w, step, basis, b, a);
            Invokes(w, v, step, basis, a) && Executes(w, v, step, basis, b, a)
  {
    var v := ExecuteStep(w, step, basis, b, a);
    var ran := Ran(w, step, b, a);
    SuccessIs(w, step, b, a);
    PhaseLeads(w, step, b, a);
    MarkRefers(w.session, w.plans, step.stepID, a.now);
    assert Stored(w, v, step, WithBackoff(ran, PhaseAfter(Latest(w.plans), ran, ran.status.Completed?, b), a.now), b, a);
  }
}

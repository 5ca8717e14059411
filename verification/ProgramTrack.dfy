/** A plan that is run in line: its steps complete strictly in order, but for the members of a concurrent aggregate,
    which run together and of which one that fails ends the session. */
module ProgramTrack {
  import opened PlanModel
  import opened Aggregates
  import opened PlanOutcome
  import opened StepSelection
  import opened SessionKernel
  import opened KernelOperations
  import opened KernelInvariants
  import opened KernelRuns
  import opened BatchWrites
  import DriverBudget

  // ---- plans ----

  /** A round may run the step together with others of its aggregate. */
  predicate Concurrent(s: Step) {
    && Tagged(s) && s.metadata.aggregateScope == TARGET_FANOUT
    && s.metadata.maxConcurrency.Some? && s.metadata.maxConcurrency.value > 1
  }

  predicate Aborting(s: Step) {
    NormalizedOnFailStrategy(s).Abort?
  }

  /** In the way when failed: retried or reinspected in its place, or aborting, which it must be to run with others. */
  predicate InLine(s: Step) {
    && !NormalizedOnFailStrategy(s).Continue? && !NormalizedOnFailStrategy(s).Replan?
    && (Concurrent(s) ==> Aborting(s))
  }

  predicate SameAggregate(s: Step, t: Step) {
    Tagged(s) && s.metadata.aggregateID == t.metadata.aggregateID
  }

  /** If both are of one aggregate, so is all between them, and they have their rules in common. */
  ghost predicate Alongside(t: seq<Step>, i: nat, j: nat)
    requires i < j < |t|
  {
    SameAggregate(t[i], t[j]) ==>
      && t[i].onFail == t[j].onFail && t[i].metadata.aggregateScope == t[j].metadata.aggregateScope
      && t[i].metadata.maxConcurrency == t[j].metadata.maxConcurrency
      && (forall m :: i < m < j ==> SameAggregate(t[i], t[m]))
  }

  ghost predicate Uniform(t: seq<Step>) {
    forall i: nat, j: nat :: i < j < |t| ==> Alongside(t, i, j)
  }

  /** A step as it was stored, with a plan it names. */
  predicate Untouched(s: Step) {
    s.status.Pending? && s.attempt == 0 && s.planID > 0 && s.metadata.retryNotBefore.None? && s.stepID != ""
  }

  ghost predicate Template(t: seq<Step>) {
    DistinctIDs(t) && Uniform(t) && forall i :: 0 <= i < |t| ==> Untouched(t[i])
  }

  ghost predicate InLinePlan(t: seq<Step>) {
    Template(t) && forall i :: 0 <= i < |t| ==> InLine(t[i])
  }

  /** Where the steps that stand together with `k` end. */
  function BlockEnd(t: seq<Step>, k: nat): (h: nat)
    requires k < |t|
    ensures k < h <= |t|
    ensures forall m :: k < m < h ==> SameAggregate(t[k], t[m])
    ensures h < |t| ==> !SameAggregate(t[k], t[h])
    decreases |t| - k
  {
    if k + 1 < |t| && SameAggregate(t[k], t[k+1]) then BlockEnd(t, k + 1) else k + 1
  }

  /** The steps that may run while `k` is in front: up to here, exclusively. */
  function SpanEnd(t: seq<Step>, k: nat): (h: nat)
    requires k < |t|
    ensures k < h <= |t|
  {
    if Concurrent(t[k]) then BlockEnd(t, k) else k + 1
  }

  // ---- where a run stands ----

  /** The same step, possibly later. */
  predicate Kept(s: Step, t: Step) {
    && s.stepID == t.stepID && s.planID == t.planID && s.onFail == t.onFail
    && s.metadata.(retryNotBefore := None) == t.metadata.(retryNotBefore := None)
  }

  /** The step in front: untouched, or failed and the one the session will take up again, or parked. */
  predicate FrontOK(w: World, s: Step, t: Step) {
    match s.status
    case Pending => s == t
    case Failed => w.session.currentStep == s.stepID && (Terminal(w.session.phase) || !Aborting(s))
    case Blocked => w.session.pendingApproval.Some?
    case _ => false
  }

  /** An awaited approval is for the step in front. */
  ghost predicate AwaitsFront(w: World, k: nat) {
    w.session.pendingApproval.Some? ==>
      && !Terminal(w.session.phase) && w.session.pendingApproval.value < |w.approvals| && k < |LatestSteps(w.plans)|
      && LatestSteps(w.plans)[k].status.Blocked? && w.approvals[w.session.pendingApproval.value].step == LatestSteps(w.plans)[k]
  }

  /** Everything before `k` is completed, everything after it as it was stored. */
  ghost predicate StepsOnTrack(steps: seq<Step>, t: seq<Step>, k: nat) {
    && |steps| == |t| && k <= |t|
    && (forall i :: 0 <= i < |t| ==> Kept(steps[i], t[i]))
    && (forall i :: 0 <= i < k ==> steps[i].status.Completed?)
    && (forall i :: k < i < |t| ==> steps[i] == t[i])
  }

  /** The session's latest plan, behind whatever else is stored, is the one these steps name. */
  ghost predicate HomePlan(plans: seq<Plan>, t: seq<Step>) {
    && HasPlan(plans) && plans[|plans|-1].planID == |plans|
    && forall i :: 0 <= i < |t| ==> t[i].planID == |plans|
  }

  /** The session works on that plan and on no other, and remembers no step after `k`. */
  ghost predicate OnTrack(w: World, t: seq<Step>, k: nat) {
    && HomePlan(w.plans, t) && StepsOnTrack(LatestSteps(w.plans), t, k)
    && (w.session.planRef == 0 || w.session.planRef == |w.plans|)
    && (forall i :: k < i < |t| ==> t[i].stepID != w.session.currentStep && t[i].stepID != w.session.inFlightStep)
    && (k < |t| ==> FrontOK(w, LatestSteps(w.plans)[k], t[k]))
    && AwaitsFront(w, k)
  }

  ghost predicate HasAborted(steps: seq<Step>) {
    exists s :: s in steps && s.status.Failed? && Aborting(s)
  }

  /** Over for good: aborted, or failed with an aborting step. */
  ghost predicate Halted(w: World) {
    && Terminal(w.session.phase) && w.session.pendingApproval.None?
    && (w.session.phase.PhaseAborted? || HasAborted(LatestSteps(w.plans)))
  }

  ghost predicate SomewhereOn(w: World, t: seq<Step>) {
    Halted(w) || exists k: nat :: OnTrack(w, t, k)
  }

  /** The id is that of a step that may run while `k` is in front. */
  predicate InSpan(id: string, t: seq<Step>, k: nat) {
    k < |t| && exists i :: k <= i < SpanEnd(t, k) && t[i].stepID == id
  }

  /** What was invoked belongs to the steps that may run while `k` is in front. */
  ghost predicate InvokesFront(w: World, v: World, t: seq<Step>, k: nat) {
    && w.log <= v.log
    && forall j :: |w.log| <= j < |v.log| ==> InSpan(v.log[j].stepID, t, k)
  }

  ghost predicate Follows(w: World, v: World, t: seq<Step>, k: nat) {
    SomewhereOn(v, t) && InvokesFront(w, v, t, k)
  }

  lemma FindAt(w: World, t: seq<Step>, k: nat, i: nat)
    requires DistinctIDs(t) && OnTrack(w, t, k) && i < |t|
    ensures FindStep(LatestSteps(w.plans), t[i].stepID) == Some(i)
  {
    assert Kept(LatestSteps(w.plans)[i], t[i]);
    match FindStep(LatestSteps(w.plans), t[i].stepID)
    case Some(j) => assert Kept(LatestSteps(w.plans)[j], t[j]);
    case None =>
  }

  // ---- the selector takes the step in front ----

  lemma PinnedIsFront(w: World, t: seq<Step>, k: nat, b: Budgets, id: string)
    requires DistinctIDs(t) && OnTrack(w, t, k) && id in {w.session.currentStep, w.session.inFlightStep}
    requires ExecutableStepByID(LatestSteps(w.plans), id, b).Some?
    ensures k < |t| && ExecutableStepByID(LatestSteps(w.plans), id, b).value == LatestSteps(w.plans)[k]
  {
    var i := FindStep(LatestSteps(w.plans), id).value;
    assert Kept(LatestSteps(w.plans)[i], t[i]);
  }

  lemma FirstPendingIs(w: World, t: seq<Step>, k: nat)
    requires Template(t) && OnTrack(w, t, k)
    ensures k < |t| && LatestSteps(w.plans)[k].status.Pending? ==> FirstPending(LatestSteps(w.plans)) == Some(k)
    ensures k == |t| ==> FirstPending(LatestSteps(w.plans)) == None
  {
    var steps := LatestSteps(w.plans);
    match FirstPending(steps)
    case Some(i) =>
    case None =>
      if k < |steps| {
        assert steps[k] in steps;
      }
  }

  /** The step in front is what the selector takes, if it is untouched or in line. */
  lemma SelectsFront(w: World, t: seq<Step>, k: nat, b: Budgets)
    requires Template(t) && OnTrack(w, t, k) && !Terminal(w.session.phase) && w.session.pendingApproval.None?
    requires k < |t| ==> InLine(t[k]) || LatestSteps(w.plans)[k].status.Pending?
    ensures SelectNextStep(w.session.currentStep, w.session.inFlightStep, PinnedSteps(w), LatestSteps(w.plans), b)
            == if k < |t| then RunStep(LatestSteps(w.plans)[k]) else NothingToRun
  {
    var steps := LatestSteps(w.plans);
    assert PinnedSteps(w) == steps;
    FirstPendingIs(w, t, k);
    if k < |t| {
      FindAt(w, t, k, k);
      assert Kept(steps[k], t[k]);
    }
    if ExecutableStepByID(steps, w.session.inFlightStep, b).Some? {
      PinnedIsFront(w, t, k, b, w.session.inFlightStep);
    } else if ExecutableStepByID(steps, w.session.currentStep, b).Some? {
      PinnedIsFront(w, t, k, b, w.session.currentStep);
    }
  }

  // ---- running the step in front by itself ----

  lemma WriteFront(w: World, t: seq<Step>, k: nat, after: Step, b: Budgets)
    requires Template(t) && OnTrack(w, t, k) && k < |t| && Kept(after, t[k])
    ensures var plans := WriteStep(w.plans, after, b);
            && |plans| == |w.plans| && HomePlan(plans, t) && LatestSteps(plans) == LatestSteps(w.plans)[k := after]
  {
    FindAt(w, t, k, k);
    DriverBudget.LatestWritten(w.plans, after, k, b);
  }

  lemma FrontReplaced(steps: seq<Step>, t: seq<Step>, k: nat, after: Step)
    requires StepsOnTrack(steps, t, k) && k < |t| && Kept(after, t[k])
    ensures StepsOnTrack(steps[k := after], t, if after.status.Completed? then k + 1 else k)
  {
  }

  lemma NoneBehindRemembered(w: World, t: seq<Step>, k: nat, current: string, flying: string)
    requires Template(t) && OnTrack(w, t, k) && k < |t|
    requires current == t[k].stepID && (flying == "" || flying == w.session.inFlightStep)
    ensures forall i :: k < i < |t| ==> t[i].stepID != current && t[i].stepID != flying
  {
    forall i | k < i < |t| ensures t[i].stepID != current && t[i].stepID != flying {
      assert Untouched(t[i]);
    }
  }

  /** The track after the step in front was stored as `after`. */
  lemma StoreFront(w: World, v: World, t: seq<Step>, k: nat, after: Step, b: Budgets)
    requires Template(t) && OnTrack(w, t, k) && k < |t| && Kept(after, t[k])
    requires v.plans == WriteStep(w.plans, after, b) && (v.session.planRef == 0 || v.session.planRef == |w.plans|)
    requires v.session.currentStep == t[k].stepID && (v.session.inFlightStep == "" || v.session.inFlightStep == w.session.inFlightStep)
    requires if after.status.Completed? then v.session.pendingApproval.None? else FrontOK(v, after, t[k])
    requires v.session.pendingApproval.Some? ==>
               && !Terminal(v.session.phase) && v.session.pendingApproval.value < |v.approvals|
               && after.status.Blocked? && v.approvals[v.session.pendingApproval.value].step == after
    ensures OnTrack(v, t, if after.status.Completed? then k + 1 else k)
  {
    WriteFront(w, t, k, after, b);
    FrontReplaced(LatestSteps(w.plans), t, k, after);
    NoneBehindRemembered(w, t, k, v.session.currentStep, v.session.inFlightStep);
    if after.status.Completed? && k + 1 < |t| {
      assert Untouched(t[k+1]) && LatestSteps(v.plans)[k+1] == t[k+1];
    }
  }

  lemma RefersHome(w: World, t: seq<Step>, k: nat, id: string, now: int)
    requires OnTrack(w, t, k)
    ensures var ref := MarkInFlight(w.session, w.plans, id, now).planRef; ref == 0 || ref == |w.plans|
  {
    match FindStep(LatestSteps(w.plans), id)
    case None =>
    case Some(i) => assert Kept(LatestSteps(w.plans)[i], t[i]);
  }

  /** What an execution leaves in the session, and which step it stores. */
  lemma ExecuteLeaves(w: World, step: Step, t: Step, basis: Basis, b: Budgets, a: Answers) returns (after: Step)
    requires w.session.pendingApproval.None? || basis == ByApproval(w.session.pendingApproval.value)
    requires Kept(step, t) && InLine(t) && step.stepID != ""
    ensures var v := ExecuteStep(w, step, basis, b, a);
            && v.plans == WriteStep(w.plans, after, b) && v.log == w.log + [Invocation(step.planID, step.stepID, a.scopeOf(step), basis)]
            && v.session.currentStep == step.stepID && v.session.inFlightStep == "" && v.session.pendingApproval.None?
            && v.session.planRef == MarkInFlight(w.session, w.plans, step.stepID, a.now).planRef
            && (after.status.Completed? || FrontOK(v, after, t))
    ensures Kept(after, t)
  {
    var ran := Ran(w, step, b, a);
    var next := PhaseAfter(Latest(w.plans), ran, ran.status.Completed?, b);
    after := WithBackoff(ran, next, a.now);
    assert NormalizedOnFailStrategy(ran) == NormalizedOnFailStrategy(t) == NormalizedOnFailStrategy(after);
  }

  lemma OneInvocationFollows(w: World, v: World, t: seq<Step>, k: nat, next: nat, inv: Invocation)
    requires k < |t| && OnTrack(v, t, next) && v.log == w.log + [inv] && inv.stepID == t[k].stepID
    ensures Follows(w, v, t, k)
  {
    forall j | |w.log| <= j < |v.log| ensures InSpan(v.log[j].stepID, t, k) {
      assert v.log[j] == inv && t[k].stepID == inv.stepID;
    }
  }

  lemma FrontExecuted(w: World, v: World, t: seq<Step>, k: nat, after: Step, inv: Invocation, b: Budgets)
    requires Template(t) && OnTrack(w, t, k) && k < |t| && Kept(after, t[k])
    requires v.plans == WriteStep(w.plans, after, b) && (v.session.planRef == 0 || v.session.planRef == |w.plans|)
    requires v.log == w.log + [inv] && inv.stepID == t[k].stepID
    requires v.session.currentStep == t[k].stepID && v.session.inFlightStep == "" && v.session.pendingApproval.None?
    requires after.status.Completed? || FrontOK(v, after, t[k])
    ensures Follows(w, v, t, k)
  {
    StoreFront(w, v, t, k, after, b);
    OneInvocationFollows(w, v, t, k, if after.status.Completed? then k + 1 else k, inv);
  }

  lemma ExecuteFront(w: World, t: seq<Step>, k: nat, basis: Basis, b: Budgets, a: Answers)
    requires InLinePlan(t) && OnTrack(w, t, k) && k < |t|
    requires w.session.pendingApproval.None? || basis == ByApproval(w.session.pendingApproval.value)
    ensures Follows(w, ExecuteStep(w, LatestSteps(w.plans)[k], basis, b, a), t, k)
  {
    var step := LatestSteps(w.plans)[k];
    assert Untouched(t[k]) && Kept(step, t[k]) && InLine(t[k]);
    var after := ExecuteLeaves(w, step, t[k], basis, b, a);
    RefersHome(w, t, k, step.stepID, a.now);
    FrontExecuted(w, ExecuteStep(w, step, basis, b, a), t, k, after, Invocation(step.planID, step.stepID, a.scopeOf(step), basis), b);
  }

  lemma AskFront(w: World, t: seq<Step>, k: nat, b: Budgets, a: Answers)
    requires InLinePlan(t) && OnTrack(w, t, k) && k < |t| && !Terminal(w.session.phase)
    ensures OnTrack(AskFor(w, LatestSteps(w.plans)[k], b, a), t, k)
  {
    var step := LatestSteps(w.plans)[k];
    assert Untouched(t[k]) && Kept(step, t[k]);
    EveryOpenPhaseReachesExecute(w.session.phase);
    StoreFront(w, AskFor(w, step, b, a), t, k, step.(status := Blocked), b);
  }

  lemma DenyFront(w: World, t: seq<Step>, k: nat, b: Budgets)
    requires InLinePlan(t) && OnTrack(w, t, k) && k < |t| && w.session.pendingApproval.None?
    ensures OnTrack(DenyStep(w, LatestSteps(w.plans)[k], b), t, k)
  {
    var step := LatestSteps(w.plans)[k];
    assert Untouched(t[k]) && Kept(step, t[k]);
    StoreFront(w, DenyStep(w, step, b), t, k, step.(attempt := step.attempt + 1, status := Failed), b);
  }

  /** A grant for the record the session waits for; an approved record never denies. */
  predicate GrantFits(w: World, forced: Option<Grant>) {
    match forced
    case None => true
    case Some(g) => w.session.pendingApproval == Some(g.id) && g.decision.Allow?
  }

  lemma RunFront(w: World, t: seq<Step>, k: nat, forced: Option<Grant>, b: Budgets, a: Answers)
    requires InLinePlan(t) && OnTrack(w, t, k) && k < |t| && GrantFits(w, forced)
    ensures var r := RunStepWithDecision(w, LatestSteps(w.plans)[k], forced, b, a);
            r.Ok? ==> Follows(w, r.value, t, k)
  {
    var step := LatestSteps(w.plans)[k];
    assert Untouched(t[k]) && Kept(step, t[k]);
    if StepGuard(w.session, b, step, forced, a).None? {
      match DecisionFor(w.approvals, step, forced, a)
      case (Ask, _) => AskFront(w, t, k, b, a);
      case (Deny, _) => DenyFront(w, t, k, b);
      case (Allow, basis) => ExecuteFront(w, t, k, basis, b, a);
    }
  }

  // ---- running the step in front with its aggregate ----

  lemma BlockIsAggregate(t: seq<Step>, k: nat, i: nat)
    requires Uniform(t) && k < i < |t|
    ensures SameAggregate(t[k], t[i]) <==> i < BlockEnd(t, k)
    ensures SameAggregate(t[k], t[i]) ==> t[k].metadata.aggregateScope == t[i].metadata.aggregateScope
  {
    assert Alongside(t, k, i);
  }

  lemma UntouchedInRound(s: Step, selected: Step, b: Budgets, systemNow: int)
    requires Untouched(s)
    ensures InRound(s, selected, b, systemNow) <==>
              Tagged(s) && SameAggregate(selected, s) && s.metadata.aggregateScope == TARGET_FANOUT
  {
  }

  /** The steps from the front to the end of its aggregate make up the round. */
  lemma RoundIsBlock(w: World, t: seq<Step>, k: nat, i: nat, b: Budgets, systemNow: int)
    requires Template(t) && OnTrack(w, t, k) && k < |t| && LatestSteps(w.plans)[k] == t[k] && Concurrent(t[k]) && i < |t|
    ensures InRound(LatestSteps(w.plans)[i], t[k], b, systemNow) <==> k <= i < BlockEnd(t, k)
  {
    assert Untouched(t[i]);
    if i >= k {
      assert LatestSteps(w.plans)[i] == t[i];
      UntouchedInRound(t[i], t[k], b, systemNow);
    }
    if i > k {
      BlockIsAggregate(t, k, i);
    }
  }

  predicate NoneInBackoff(steps: seq<Step>, now: int) {
    forall m :: 0 <= m < |steps| ==> !BackoffActive(steps[m], now)
  }

  lemma PrepareOne(approvals: seq<Approval>, steps: seq<Step>, b: Budgets, a: Answers)
    requires steps != [] && !BackoffActive(steps[0], a.now) && PrepareRound(approvals, steps, b, a).Prepared?
    ensures PrepareRound(approvals, steps[1..], b, a).Prepared?
    ensures var ps := PrepareRound(approvals, steps, b, a).steps;
            ps != [] && ps[0].step == steps[0] && ps[1..] == PrepareRound(approvals, steps[1..], b, a).steps
  {
  }

  /** No step is left out of a prepared round for anything but backoff. */
  lemma {:induction false} PreparesInOrder(approvals: seq<Approval>, steps: seq<Step>, b: Budgets, a: Answers)
    requires NoneInBackoff(steps, a.now) && PrepareRound(approvals, steps, b, a).Prepared?
    ensures var ps := PrepareRound(approvals, steps, b, a).steps;
            |ps| == |steps| && forall m :: 0 <= m < |ps| ==> ps[m].step == steps[m]
  {
    if steps != [] {
      PrepareOne(approvals, steps, b, a);
      PreparesInOrder(approvals, steps[1..], b, a);
      var ps := PrepareRound(approvals, steps, b, a).steps;
      assert forall m :: 1 <= m < |ps| ==> ps[m] == ps[1..][m-1];
    }
  }

  ghost predicate InBlock(s: Step, t: seq<Step>, k: nat, h: nat)
    requires h <= |t|
  {
    exists i :: k <= i < h && s == t[i]
  }

  ghost predicate IsPrepared(ps: seq<PreparedStep>, s: Step) {
    exists p :: p in ps && p.step == s
  }

  /** What was prepared is the block, every step of it. */
  ghost predicate PreparesBlock(ps: seq<PreparedStep>, t: seq<Step>, k: nat, h: nat)
    requires h <= |t|
  {
    && (forall m :: 0 <= m < |ps| ==> InBlock(ps[m].step, t, k, h))
    && (forall i :: k <= i < h ==> IsPrepared(ps, t[i]))
  }

  lemma RoundPrepares(w: World, t: seq<Step>, k: nat, b: Budgets, a: Answers)
    requires Template(t) && OnTrack(w, t, k) && k < |t| && LatestSteps(w.plans)[k] == t[k] && Concurrent(t[k])
    requires PrepareRound(w.approvals, RoundSteps(LatestSteps(w.plans), t[k], b, a.systemNow), b, a).Prepared?
    ensures PreparesBlock(PrepareRound(w.approvals, RoundSteps(LatestSteps(w.plans), t[k], b, a.systemNow), b, a).steps, t, k, BlockEnd(t, k))
  {
    var round := RoundSteps(LatestSteps(w.plans), t[k], b, a.systemNow);
    var ps := PrepareRound(w.approvals, round, b, a).steps;
    RoundNotInBackoff(w, t, k, b, a.systemNow, a.now);
    PreparesInOrder(w.approvals, round, b, a);
    forall m | 0 <= m < |ps| ensures InBlock(ps[m].step, t, k, BlockEnd(t, k)) {
      assert round[m] in round;
      RoundInBlock(w, t, k, round[m], b, a.systemNow);
    }
    forall i | k <= i < BlockEnd(t, k) ensures IsPrepared(ps, t[i]) {
      BlockInRound(w, t, k, i, b, a.systemNow);
      var m :| 0 <= m < |round| && round[m] == t[i];
      assert ps[m] in ps && ps[m].step == t[i];
    }
  }

  lemma RoundInBlock(w: World, t: seq<Step>, k: nat, s: Step, b: Budgets, systemNow: int)
    requires Template(t) && OnTrack(w, t, k) && k < |t| && LatestSteps(w.plans)[k] == t[k] && Concurrent(t[k])
    requires s in RoundSteps(LatestSteps(w.plans), t[k], b, systemNow)
    ensures InBlock(s, t, k, BlockEnd(t, k)) && Untouched(s)
  {
    RoundStepsAre(LatestSteps(w.plans), t[k], b, systemNow);
    var i :| 0 <= i < |t| && LatestSteps(w.plans)[i] == s;
    RoundIsBlock(w, t, k, i, b, systemNow);
    assert s == t[i];
  }

  lemma BlockInRound(w: World, t: seq<Step>, k: nat, i: nat, b: Budgets, systemNow: int)
    requires Template(t) && OnTrack(w, t, k) && k < |t| && LatestSteps(w.plans)[k] == t[k] && Concurrent(t[k])
    requires k <= i < BlockEnd(t, k)
    ensures t[i] in RoundSteps(LatestSteps(w.plans), t[k], b, systemNow)
  {
    RoundIsBlock(w, t, k, i, b, systemNow);
    RoundStepsAre(LatestSteps(w.plans), t[k], b, systemNow);
    assert LatestSteps(w.plans)[i] == t[i];
  }

  lemma RoundNotInBackoff(w: World, t: seq<Step>, k: nat, b: Budgets, systemNow: int, now: int)
    requires Template(t) && OnTrack(w, t, k) && k < |t| && LatestSteps(w.plans)[k] == t[k] && Concurrent(t[k])
    ensures NoneInBackoff(RoundSteps(LatestSteps(w.plans), t[k], b, systemNow), now)
  {
    var round := RoundSteps(LatestSteps(w.plans), t[k], b, systemNow);
    forall m | 0 <= m < |round| ensures !BackoffActive(round[m], now) {
      assert round[m] in round;
      RoundInBlock(w, t, k, round[m], b, systemNow);
    }
  }

  /** What a round's result is to the step it ran. */
  predicate ResultOf(r: Step, s: Step) {
    Kept(r, s) && (r.status.Completed? || r.status.Failed?)
  }

  ghost predicate ResultsOf(results: seq<Step>, ps: seq<PreparedStep>) {
    |results| == |ps| && forall m :: 0 <= m < |ps| ==> ResultOf(results[m], ps[m].step)
  }

  lemma ResultsAre(latest: seq<Step>, ps: seq<PreparedStep>, b: Budgets, a: Answers)
    ensures ResultsOf(RoundResults(latest, ps, b, a), ps)
  {
    var outcomes := RoundOutcomes(ps, b, a);
    forall m | 0 <= m < |ps| ensures ResultOf(outcomes[m], ps[m].step) {
      assert outcomes[m] == RoundOutcome(ps[m], b, a);
    }
  }

  /** The plan after a round: the block replaced by results, the rest as it was. */
  ghost predicate BlockReplaced(steps: seq<Step>, after: seq<Step>, t: seq<Step>, k: nat, h: nat)
    requires h <= |t|
  {
    && |after| == |steps| == |t|
    && (forall i :: k <= i < h ==> ResultOf(after[i], t[i]))
    && (forall i :: 0 <= i < |t| && !(k <= i < h) ==> after[i] == steps[i])
  }

  lemma ResultBelongs(t: seq<Step>, k: nat, h: nat, ps: seq<PreparedStep>, results: seq<Step>, m: nat) returns (j: nat)
    requires h <= |t| && PreparesBlock(ps, t, k, h) && ResultsOf(results, ps) && m < |results|
    ensures k <= j < h && ResultOf(results[m], t[j])
  {
    assert InBlock(ps[m].step, t, k, h);
    j :| k <= j < h && ps[m].step == t[j];
  }

  lemma BlockHasResult(t: seq<Step>, k: nat, h: nat, ps: seq<PreparedStep>, results: seq<Step>, i: nat)
    requires h <= |t| && PreparesBlock(ps, t, k, h) && ResultsOf(results, ps) && k <= i < h
    ensures FindLast(results, t[i].stepID).Some?
  {
    assert IsPrepared(ps, t[i]);
    var p :| p in ps && p.step == t[i];
    var m :| 0 <= m < |ps| && ps[m] == p;
    assert ResultOf(results[m], ps[m].step) && results[m] in results;
  }

  lemma ReplacesBlock(steps: seq<Step>, t: seq<Step>, k: nat, h: nat, ps: seq<PreparedStep>, results: seq<Step>)
    requires DistinctIDs(t) && |steps| == |t| && forall i :: 0 <= i < |t| ==> steps[i].stepID == t[i].stepID
    requires h <= |t| && PreparesBlock(ps, t, k, h) && ResultsOf(results, ps)
    ensures BlockReplaced(steps, ReplaceSteps(steps, results), t, k, h)
  {
    forall i | 0 <= i < |t|
      ensures if k <= i < h then ResultOf(ReplaceSteps(steps, results)[i], t[i]) else ReplaceSteps(steps, results)[i] == steps[i]
    {
      ReplacesOne(steps, t, k, h, ps, results, i);
    }
  }

  lemma ReplacesOne(steps: seq<Step>, t: seq<Step>, k: nat, h: nat, ps: seq<PreparedStep>, results: seq<Step>, i: nat)
    requires DistinctIDs(t) && |steps| == |t| && i < |t| && steps[i].stepID == t[i].stepID
    requires h <= |t| && PreparesBlock(ps, t, k, h) && ResultsOf(results, ps)
    ensures if k <= i < h then ResultOf(ReplaceSteps(steps, results)[i], t[i]) else ReplaceSteps(steps, results)[i] == steps[i]
  {
    if k <= i < h {
      BlockHasResult(t, k, h, ps, results, i);
    }
    var m := ReplacedBy(steps, results, i);
    if m.Some? {
      var j := ResultBelongs(t, k, h, ps, results, m.value);
      SameStep(t, i, j);
    }
  }

  lemma SameStep(t: seq<Step>, i: nat, j: nat)
    requires DistinctIDs(t) && i < |t| && j < |t| && t[i].stepID == t[j].stepID
    ensures i == j
  {
  }

  lemma ReplacedBy(steps: seq<Step>, results: seq<Step>, i: nat) returns (m: Option<nat>)
    requires i < |steps|
    ensures m.None? <==> FindLast(results, steps[i].stepID).None?
    ensures m.None? ==> ReplaceSteps(steps, results)[i] == steps[i]
    ensures m.Some? ==> m.value < |results| && results[m.value].stepID == steps[i].stepID
                        && ReplaceSteps(steps, results)[i] == results[m.value]
  {
    m := None;
    if FindLast(results, steps[i].stepID).Some? {
      var j :| 0 <= j < |results| && results[j] == FindLast(results, steps[i].stepID).value;
      m := Some(j);
    }
  }

  ghost function LatestReplaced(plans: seq<Plan>, steps: seq<Step>, b: Budgets): seq<Plan>
    requires HasPlan(plans)
  {
    plans[|plans|-1 := WithSteps(plans[|plans|-1], steps, b)]
  }

  lemma RoundWrites(plans: seq<Plan>, t: seq<Step>, k: nat, h: nat, ps: seq<PreparedStep>, results: seq<Step>, b: Budgets)
    requires HomePlan(plans, t) && Template(t) && StepsOnTrack(LatestSteps(plans), t, k) && h <= |t|
    requires PreparesBlock(ps, t, k, h) && ps != [] && ResultsOf(results, ps)
    ensures WriteSteps(plans, results, b) == LatestReplaced(plans, ReplaceSteps(LatestSteps(plans), results), b)
  {
    forall m | 0 <= m < |results| ensures results[m].planID == |plans| {
      var i := ResultBelongs(t, k, h, ps, results, m);
      assert Untouched(t[i]);
    }
    assert AnnotateSteps(results, |plans|) == results;
    var i := ResultBelongs(t, k, h, ps, results, 0);
    assert Kept(LatestSteps(plans)[i], t[i]);
    assert FindStep(LatestSteps(plans), results[0].stepID).Some?;
    WriteStepsAre(plans, results, |plans| - 1, b);
  }

  predicate Invoked(log: seq<Invocation>, id: string) {
    exists m :: 0 <= m < |log| && log[m].stepID == id
  }

  predicate PreparedID(ps: seq<PreparedStep>, id: string) {
    exists m :: 0 <= m < |ps| && ps[m].step.stepID == id
  }

  /** A round invokes the tools of the steps it prepared, but for those denied. */
  lemma {:induction false} InvokesPrepared(ps: seq<PreparedStep>)
    ensures forall j :: 0 <= j < |RoundInvocations(ps)| ==> PreparedID(ps, RoundInvocations(ps)[j].stepID)
    ensures forall m :: 0 <= m < |ps| && !ps[m].decision.Deny? ==> Invoked(RoundInvocations(ps), ps[m].step.stepID)
  {
    if ps != [] {
      var n := |ps| - 1;
      var front, log := RoundInvocations(ps[..n]), RoundInvocations(ps);
      InvokesPrepared(ps[..n]);
      forall j | 0 <= j < |log| ensures PreparedID(ps, log[j].stepID) {
        if j < |front| {
          assert PreparedID(ps[..n], front[j].stepID);
          var m :| 0 <= m < n && ps[..n][m].step.stepID == front[j].stepID;
          assert ps[m].step.stepID == log[j].stepID;
        } else {
          assert ps[n].step.stepID == log[j].stepID;
        }
      }
      forall m | 0 <= m < |ps| && !ps[m].decision.Deny? ensures Invoked(log, ps[m].step.stepID) {
        if m < n {
          assert ps[..n][m] == ps[m] && Invoked(front, ps[..n][m].step.stepID);
          var j :| 0 <= j < |front| && front[j].stepID == ps[m].step.stepID;
          assert log[j] == front[j];
        } else {
          assert log[|front|].stepID == ps[n].step.stepID;
        }
      }
    }
  }

  /** What a round leaves, told apart from how it is computed. */
  ghost predicate RoundLeft(w: World, v: World, t: seq<Step>, k: nat, h: nat, ps: seq<PreparedStep>, after: seq<Step>, b: Budgets)
    requires HasPlan(w.plans) && h <= |t|
  {
    && BlockReplaced(LatestSteps(w.plans), after, t, k, h)
    && v.plans == LatestReplaced(w.plans, after, b) && v.session.planRef == w.session.planRef && v.session.phase == PhaseForVerdict(VerdictOf(after, b))
    && v.session.inFlightStep == "" && v.session.pendingApproval.None? && v.session.execution.Idle?
    && ps != [] && v.session.currentStep == ps[|ps|-1].step.stepID && (exists i :: k <= i < h && v.session.currentStep == t[i].stepID)
    && v.approvals == w.approvals && v.log == w.log + RoundInvocations(ps)
  }

  lemma RoundComesTo(w: World, anchor: Step, ps: seq<PreparedStep>, b: Budgets, a: Answers) returns (results: seq<Step>)
    requires |ps| > 1
    ensures results == RoundResults(LatestSteps(w.plans), ps, b, a)
    ensures var v := ExecuteRound(w, anchor, ps, b, a);
            && v.plans == WriteSteps(w.plans, results, b)
            && v.session.phase == PhaseForVerdict(VerdictOf(ReplaceSteps(LatestSteps(w.plans), results), b))
            && v.session.inFlightStep == "" && v.session.pendingApproval == w.session.pendingApproval && v.session.execution.Idle?
            && v.session.planRef == w.session.planRef
            && (results[|results|-1].stepID != "" ==> v.session.currentStep == results[|results|-1].stepID)
            && v.session.runtimeStartedAt == (if w.session.runtimeStartedAt == 0 then a.now else w.session.runtimeStartedAt)
            && v.approvals == w.approvals && v.log == w.log + RoundInvocations(ps)
  {
    results := RoundResults(LatestSteps(w.plans), ps, b, a);
  }

  lemma RoundLeaves(w: World, anchor: Step, t: seq<Step>, k: nat, h: nat, ps: seq<PreparedStep>, b: Budgets, a: Answers)
    requires Template(t) && OnTrack(w, t, k) && h <= |t| && PreparesBlock(ps, t, k, h) && |ps| > 1
    requires w.session.pendingApproval.None?
    ensures var after := ReplaceSteps(LatestSteps(w.plans), RoundResults(LatestSteps(w.plans), ps, b, a));
            RoundLeft(w, ExecuteRound(w, anchor, ps, b, a), t, k, h, ps, after, b)
  {
    var results := RoundComesTo(w, anchor, ps, b, a);
    var steps := LatestSteps(w.plans);
    ResultsAre(steps, ps, b, a);
    ReplacesBlock(steps, t, k, h, ps, results);
    RoundWrites(w.plans, t, k, h, ps, results, b);
    var i := ResultBelongs(t, k, h, ps, results, |results| - 1);
    assert Untouched(t[i]) && ResultOf(results[|results|-1], ps[|ps|-1].step);
  }

  lemma RoundInvokesFront(w: World, v: World, t: seq<Step>, k: nat, ps: seq<PreparedStep>)
    requires k < |t| && Concurrent(t[k]) && PreparesBlock(ps, t, k, BlockEnd(t, k)) && v.log == w.log + RoundInvocations(ps)
    ensures InvokesFront(w, v, t, k)
  {
    var h := BlockEnd(t, k);
    InvokesPrepared(ps);
    forall j | |w.log| <= j < |v.log| ensures InSpan(v.log[j].stepID, t, k) {
      var j0 := j - |w.log|;
      assert v.log[j] == RoundInvocations(ps)[j0] && PreparedID(ps, RoundInvocations(ps)[j0].stepID);
      var m :| 0 <= m < |ps| && ps[m].step.stepID == v.log[j].stepID;
      assert InBlock(ps[m].step, t, k, h);
    }
  }

  lemma BlockCompleted(steps: seq<Step>, after: seq<Step>, t: seq<Step>, k: nat, h: nat)
    requires StepsOnTrack(steps, t, k) && k < h <= |t| && BlockReplaced(steps, after, t, k, h)
    requires forall i :: k <= i < h ==> after[i].status.Completed?
    ensures StepsOnTrack(after, t, h)
  {
    assert forall i :: k <= i < h ==> ResultOf(after[i], t[i]);
  }

  lemma BlockDone(w: World, v: World, t: seq<Step>, k: nat, h: nat, ps: seq<PreparedStep>, after: seq<Step>, b: Budgets)
    requires Template(t) && OnTrack(w, t, k) && k < h <= |t| && RoundLeft(w, v, t, k, h, ps, after, b)
    requires forall i :: k <= i < h ==> after[i].status.Completed?
    ensures OnTrack(v, t, h)
  {
    BlockCompleted(LatestSteps(w.plans), after, t, k, h);
    var i :| k <= i < h && v.session.currentStep == t[i].stepID;
    forall j | h < j < |t| ensures t[j].stepID != v.session.currentStep && t[j].stepID != "" {
      assert Untouched(t[j]);
    }
    if h < |t| {
      assert Untouched(t[h]) && after[h] == t[h];
    }
  }

  /** One aborting member that fails ends the session. */
  lemma FailureHalts(v: World, after: seq<Step>, s: Step, b: Budgets)
    requires LatestSteps(v.plans) == after && v.session.phase == PhaseForVerdict(VerdictOf(after, b))
    requires v.session.pendingApproval.None? && s in after && s.status.Failed? && Aborting(s)
    ensures Halted(v)
  {
    assert DoomsPlan(after, s, b);
  }

  lemma FailedAborts(steps: seq<Step>, after: seq<Step>, t: seq<Step>, k: nat, h: nat, i: nat)
    requires Uniform(t) && k < h <= |t| && BlockReplaced(steps, after, t, k, h) && k <= i < h && SameBlock(t, k, i)
    requires Aborting(t[k]) && after[i].status.Failed?
    ensures after[i] in after && Aborting(after[i])
  {
    assert ResultOf(after[i], t[i]);
    assert k < i ==> Alongside(t, k, i);
  }

  predicate SameBlock(t: seq<Step>, k: nat, i: nat)
    requires k <= i < |t|
  {
    k < i ==> SameAggregate(t[k], t[i])
  }

  lemma BlockFails(w: World, v: World, t: seq<Step>, k: nat, ps: seq<PreparedStep>, after: seq<Step>, i: nat, b: Budgets)
    requires Uniform(t) && HasPlan(w.plans) && k < |t| && RoundLeft(w, v, t, k, BlockEnd(t, k), ps, after, b) && Aborting(t[k])
    requires k <= i < BlockEnd(t, k) && after[i].status.Failed?
    ensures Halted(v)
  {
    FailedAborts(LatestSteps(w.plans), after, t, k, BlockEnd(t, k), i);
    FailureHalts(v, after, after[i], b);
  }

  lemma RoundRuns(w: World, t: seq<Step>, k: nat, ps: seq<PreparedStep>, b: Budgets, a: Answers) returns (after: seq<Step>)
    requires InLinePlan(t) && OnTrack(w, t, k) && k < |t| && LatestSteps(w.plans)[k] == t[k] && Concurrent(t[k])
    requires PrepareRound(w.approvals, RoundSteps(LatestSteps(w.plans), t[k], b, a.systemNow), b, a) == Prepared(ps)
    requires |ps| > 1 && w.session.pendingApproval.None?
    ensures var v := ExecuteRound(w, t[k], ps, b, a);
            RoundLeft(w, v, t, k, BlockEnd(t, k), ps, after, b) && InvokesFront(w, v, t, k)
  {
    RoundPrepares(w, t, k, b, a);
    RoundLeaves(w, t[k], t, k, BlockEnd(t, k), ps, b, a);
    after := ReplaceSteps(LatestSteps(w.plans), RoundResults(LatestSteps(w.plans), ps, b, a));
    RoundInvokesFront(w, ExecuteRound(w, t[k], ps, b, a), t, k, ps);
  }

  lemma RoundRunFollows(w: World, t: seq<Step>, k: nat, ps: seq<PreparedStep>, b: Budgets, a: Answers)
    requires InLinePlan(t) && OnTrack(w, t, k) && k < |t| && LatestSteps(w.plans)[k] == t[k] && Concurrent(t[k])
    requires PrepareRound(w.approvals, RoundSteps(LatestSteps(w.plans), t[k], b, a.systemNow), b, a) == Prepared(ps)
    requires |ps| > 1 && w.session.pendingApproval.None?
    ensures Follows(w, ExecuteRound(w, t[k], ps, b, a), t, k)
  {
    var after := RoundRuns(w, t, k, ps, b, a);
    RoundEnds(w, ExecuteRound(w, t[k], ps, b, a), t, k, ps, after, b);
  }

  /** A round completes the whole aggregate, or a member fails and the session is over. */
  lemma RoundFollows(w: World, t: seq<Step>, k: nat, b: Budgets, a: Answers)
    requires InLinePlan(t) && OnTrack(w, t, k) && k < |t| && LatestSteps(w.plans)[k] == t[k]
    ensures var r := TryFanoutRound(w, t[k], b, a); r.RoundDone? ==> Follows(w, r.world, t, k)
  {
    if TryFanoutRound(w, t[k], b, a).RoundDone? {
      var ps := RoundDoneIs(w, t[k], b, a);
      RoundRunFollows(w, t, k, ps, b, a);
    }
  }

  lemma RoundEnds(w: World, v: World, t: seq<Step>, k: nat, ps: seq<PreparedStep>, after: seq<Step>, b: Budgets)
    requires InLinePlan(t) && OnTrack(w, t, k) && k < |t| && Concurrent(t[k])
    requires RoundLeft(w, v, t, k, BlockEnd(t, k), ps, after, b)
    ensures SomewhereOn(v, t)
  {
    assert InLine(t[k]);
    if i :| k <= i < BlockEnd(t, k) && after[i].status.Failed? {
      BlockFails(w, v, t, k, ps, after, i, b);
    } else {
      forall i | k <= i < BlockEnd(t, k) ensures after[i].status.Completed? {
        assert ResultOf(after[i], t[i]);
      }
      BlockDone(w, v, t, k, BlockEnd(t, k), ps, after, b);
    }
  }

  // ---- a driver turn ----

  lemma AwaitedIsFront(w: World, t: seq<Step>, k: nat) returns (id: nat)
    requires Inv(w) && OnTrack(w, t, k) && w.session.pendingApproval.Some?
    ensures w.session.pendingApproval == Some(id) && id < |w.approvals| && k < |t|
    ensures w.approvals[id].step == LatestSteps(w.plans)[k] && RecordOK(w.approvals[id])
  {
    id := w.session.pendingApproval.value;
  }

  lemma NothingFollows(w: World, t: seq<Step>, k: nat)
    requires OnTrack(w, t, k)
    ensures Follows(w, w, t, k)
  {
  }

  lemma SelectedFollows(w: World, t: seq<Step>, k: nat, b: Budgets, a: Answers)
    requires InLinePlan(t) && OnTrack(w, t, k) && k < |t| && !Terminal(w.session.phase) && w.session.pendingApproval.None?
    ensures Follows(w, RunSelected(w, LatestSteps(w.plans)[k], b, a).world, t, k)
  {
    var step := LatestSteps(w.plans)[k];
    assert Kept(step, t[k]) && InLine(t[k]);
    NothingFollows(w, t, k);
    RunFront(w, t, k, None, b, a);
    if step.status.Pending? {
      RoundFollows(w, t, k, b, a);
    } else {
      assert FanoutRound(LatestSteps(w.plans), step, b, a.systemNow).None?;
    }
  }

  lemma TurnFollows(w: World, t: seq<Step>, k: nat, b: Budgets, opening: Answers, a: Answers)
    requires Inv(w) && InLinePlan(t) && OnTrack(w, t, k)
    ensures Follows(w, DriverTurn(w, b, opening, a).world, t, k)
  {
    NothingFollows(w, t, k);
    if opening.refused || Terminal(w.session.phase) || w.session.execution.ExecutionBlocked? {
    } else if w.session.pendingApproval.Some? {
      var id := AwaitedIsFront(w, t, k);
      if w.approvals[id].status.Approved? {
        RunFront(w, t, k, Some(Grant(id, Allow)), b, a);
      }
    } else {
      if k < |t| {
        assert InLine(t[k]);
        SelectedFollows(w, t, k, b, a);
      }
      SelectsFront(w, t, k, b);
    }
  }

  // ---- the other calls ----

  /** Not over for good: no step that failed has the strategy to abort. */
  ghost predicate MayReopen(w: World) {
    Terminal(w.session.phase) ==> !w.session.phase.PhaseAborted? && !HasAborted(LatestSteps(w.plans))
  }

  /** Calls that leave the order alone: no foreign steps or plans, and a session that is over for good is not reopened.
      A step may be marked in flight when everything before it is completed. */
  ghost predicate ProgramCall(w: World, op: Operation) {
    match op
    case InFlightCall(id, _) =>
      forall i :: 0 <= i < |LatestSteps(w.plans)| && LatestSteps(w.plans)[i].stepID == id ==>
                    forall j :: 0 <= j < i ==> LatestSteps(w.plans)[j].status.Completed?
    case InterruptedCall(_) => MayReopen(w)
    case AttachTask => MayReopen(w)
    case RunStepCall(_, _) => false
    case CreatePlanCall(_) => false
    case _ => true
  }

  /** A session that is over for good stays so, and invokes nothing. */
  lemma HaltedStays(w: World, b: Budgets, op: Operation)
    requires Halted(w) && ProgramCall(w, op)
    ensures Halted(Apply(w, b, op)) && Apply(w, b, op).log == w.log
  {
  }

  lemma RespondFollows(w: World, t: seq<Step>, k: nat, id: nat, reply: Reply)
    requires Inv(w) && InLinePlan(t) && OnTrack(w, t, k)
    ensures Follows(w, Settled(w, RespondApproval(w, id, reply)), t, k)
  {
    NothingFollows(w, t, k);
    var r := RespondApproval(w, id, reply);
    if r.Ok? {
      var same := AwaitedIsFront(w, t, k);
      assert Kept(LatestSteps(w.plans)[k], t[k]) && Untouched(t[k]);
      if reply.Reject? {
        StoreFront(w, r.value, t, k, w.approvals[id].step.(status := Failed), DEFAULT_BUDGETS);
      } else {
        assert OnTrack(r.value, t, k);
      }
    }
  }

  /** Marked in flight, a session stays on the track if it is no later step that is marked. */
  lemma InFlightKeepsTrack(w: World, t: seq<Step>, k: nat, b: Budgets, id: string, now: int)
    requires OnTrack(w, t, k) && forall i :: k < i < |t| ==> t[i].stepID != id
    ensures OnTrack(Settled(w, MarkSessionInFlight(w, b, id, now)), t, k)
  {
    RefersHome(w, t, k, id, now);
  }

  lemma InFlightFollows(w: World, t: seq<Step>, k: nat, b: Budgets, id: string, now: int)
    requires OnTrack(w, t, k) && ProgramCall(w, InFlightCall(id, now))
    ensures Follows(w, Settled(w, MarkSessionInFlight(w, b, id, now)), t, k)
  {
    var steps := LatestSteps(w.plans);
    assert LatestSteps(w.plans) == steps;
    forall i | k < i < |t| ensures t[i].stepID != id {
      assert Kept(steps[i], t[i]);
      assert !steps[k].status.Completed?;
    }
    InFlightKeepsTrack(w, t, k, b, id, now);
  }

  lemma ResumeCallFollows(w: World, t: seq<Step>, k: nat, b: Budgets, a: Answers)
    requires Inv(w) && InLinePlan(t) && OnTrack(w, t, k)
    ensures Follows(w, Settled(w, ResumePendingApproval(w, b, a)), t, k)
  {
    NothingFollows(w, t, k);
    if w.session.pendingApproval.Some? {
      var id := AwaitedIsFront(w, t, k);
      if w.approvals[id].status.Approved? {
        RunFront(w, t, k, Some(Grant(id, Allow)), b, a);
      }
    }
  }

  /** The step in front failed and its strategy is to abort. */
  predicate FrontAborted(w: World, k: nat) {
    k < |LatestSteps(w.plans)| && LatestSteps(w.plans)[k].status.Failed? && Aborting(LatestSteps(w.plans)[k])
  }

  /** Marked interrupted, a session stays on the track unless an aborting step in front had failed. */
  lemma InterruptKeepsTrack(w: World, t: seq<Step>, k: nat, now: int)
    requires OnTrack(w, t, k) && !FrontAborted(w, k)
    ensures OnTrack(MarkSessionInterrupted(w, now), t, k)
  {
    if k < |t| {
      assert Kept(LatestSteps(w.plans)[k], t[k]);
    }
  }

  lemma InterruptFollows(w: World, t: seq<Step>, k: nat, now: int)
    requires OnTrack(w, t, k) && ProgramCall(w, InterruptedCall(now))
    ensures Follows(w, MarkSessionInterrupted(w, now), t, k)
  {
    if k < |t| {
      assert Kept(LatestSteps(w.plans)[k], t[k]);
      assert LatestSteps(w.plans)[k] in LatestSteps(w.plans);
    }
    InterruptKeepsTrack(w, t, k, now);
  }

  /** A session a task is attached to stays on the track on the same terms. */
  lemma AttachKeepsTrack(w: World, t: seq<Step>, k: nat)
    requires OnTrack(w, t, k) && !FrontAborted(w, k)
    ensures OnTrack(AttachTaskTo(w), t, k)
  {
    if k < |t| {
      assert Kept(LatestSteps(w.plans)[k], t[k]);
    }
  }

  lemma AttachFollows(w: World, t: seq<Step>, k: nat)
    requires OnTrack(w, t, k) && ProgramCall(w, AttachTask)
    ensures Follows(w, AttachTaskTo(w), t, k)
  {
    if k < |t| {
      assert Kept(LatestSteps(w.plans)[k], t[k]);
      assert LatestSteps(w.plans)[k] in LatestSteps(w.plans);
    }
    AttachKeepsTrack(w, t, k);
  }

  lemma AbortFollows(w: World, t: seq<Step>, k: nat)
    requires Inv(w) && OnTrack(w, t, k)
    ensures Follows(w, Settled(w, AbortSession(w)), t, k)
  {
    NothingFollows(w, t, k);
    if AbortSession(w).Ok? && !w.session.phase.PhaseAborted? {
      assert Halted(AbortSession(w).value);
    }
  }

  lemma SameSessionFollows(w: World, v: World, t: seq<Step>, k: nat)
    requires OnTrack(w, t, k) && v.plans == w.plans && v.log == w.log && v.approvals == w.approvals
    requires v.session.phase == w.session.phase && v.session.pendingApproval == w.session.pendingApproval
    requires v.session.planRef == w.session.planRef
    requires v.session.currentStep == w.session.currentStep && v.session.inFlightStep == w.session.inFlightStep
    ensures Follows(w, v, t, k)
  {
    assert OnTrack(v, t, k);
  }

  lemma NormalizeFollows(w: World, t: seq<Step>, k: nat)
    requires Template(t) && OnTrack(w, t, k)
    ensures Follows(w, NormalizeForRecovery(w), t, k)
  {
    var v := NormalizeForRecovery(w);
    if k < |t| {
      assert Kept(LatestSteps(w.plans)[k], t[k]) && Untouched(t[k]);
    }
    assert OnTrack(v, t, k);
  }

  /** Every admitted call leads to another place on the track, or ends the session for good, and invokes nothing but
      steps that may run while `k` is in front. */
  lemma CallFollows(w: World, t: seq<Step>, k: nat, b: Budgets, op: Operation)
    requires Inv(w) && InLinePlan(t) && OnTrack(w, t, k) && ProgramCall(w, op)
    ensures Follows(w, Apply(w, b, op), t, k)
  {
    match op
    case Drive(opening, a) => TurnFollows(w, t, k, b, opening, a);
    case ResumeApproval(a) => ResumeCallFollows(w, t, k, b, a);
    case Respond(id, reply) => RespondFollows(w, t, k, id, reply);
    case InFlightCall(id, now) => InFlightFollows(w, t, k, b, id, now);
    case InterruptedCall(now) => InterruptFollows(w, t, k, now);
    case Abort => AbortFollows(w, t, k);
    case AttachTask => AttachFollows(w, t, k);
    case Normalize => NormalizeFollows(w, t, k);
    case _ => SameSessionFollows(w, Apply(w, b, op), t, k);
  }
}

/** Which programs run strictly in order, and where the order stops being guarded. */
module ProgramLimits {
  import opened PlanModel
  import opened Aggregates
  import opened PlanOutcome
  import opened StepSelection
  import opened SessionKernel
  import opened KernelOperations
  import opened KernelInvariants
  import opened KernelRuns
  import opened ProgramGraph
  import opened ProgramCompiler
  import opened ProgramTrack
  import opened ProgramRun

  // ---- which programs run strictly in order ----

  predicate FansOut(node: Node) {
    node.resolution.Targets? && |node.resolution.targets| > 1
  }

  function StrategyOf(node: Node): string {
    if FansOut(node) && TargetStrategy(node) == "continue" then "continue" else node.onFail.strategy
  }

  /** The node neither goes on past its failure nor asks for a new plan, and aborts if its targets run together. */
  predicate InLineNode(node: Node) {
    && StrategyOf(node) != "continue" && StrategyOf(node) != "replan"
    && (FansOut(node) && node.maxConcurrency != 1 ==> StrategyOf(node) == "abort")
  }

  lemma NodeInLine(p: Program, node: Node, planID: nat, j: nat)
    requires Expands(node) && node.nodeID != "" && j < |ExpandNode(p, node)|
    ensures InLine(AnnotateStep(NormalizeStatus(ExpandNode(p, node)[j]), planID)) <==> InLineNode(node)
  {
    PartIs(p, node, j);
    var s := ExpandNode(p, node)[j];
    if FansOut(node) {
      assert |StepIDFor(p, node, None)| > 0;
      assert Concurrent(s) <==> node.maxConcurrency != 1;
    }
    assert NormalizedOnFailStrategy(AnnotateStep(NormalizeStatus(s), planID)) == NormalizedOnFailStrategy(s);
  }

  lemma PartAlongside(parts: seq<seq<Step>>, m: nat, i: nat, j: nat)
    requires Alike(parts) && m < |parts| && i < j < |parts[m]| && Offset(parts, m) + j < |Concat(parts)|
    requires Concat(parts)[Offset(parts, m) + i] == parts[m][i] && Concat(parts)[Offset(parts, m) + j] == parts[m][j]
    ensures Alongside(Concat(parts), Offset(parts, m) + i, Offset(parts, m) + j)
  {
    assert SameRules(parts[m][i], parts[m][j]);
    if SameAggregate(parts[m][i], parts[m][j]) {
      forall r | Offset(parts, m) + i < r < Offset(parts, m) + j ensures SameAggregate(parts[m][i], Concat(parts)[r]) {
        PartStands(parts, m, r - Offset(parts, m));
        assert SameRules(parts[m][i], parts[m][r - Offset(parts, m)]);
      }
    }
  }

  /** Steps between two of one aggregate are of that aggregate too. */
  lemma PartsAlongside(parts: seq<seq<Step>>, i: nat, j: nat)
    requires Apart(parts) && Alike(parts) && i < j < |Concat(parts)|
    ensures Alongside(Concat(parts), i, j)
  {
    var m, ji := PartAt(parts, i);
    var e, jj := PartAt(parts, j);
    if SameAggregate(parts[m][ji], parts[e][jj]) {
      PartAlongside(parts, m, ji, jj);
    }
  }

  lemma StoredAlongside(steps: seq<Step>, planID: nat, i: nat, j: nat)
    requires i < j < |steps| && Alongside(steps, i, j)
    ensures Alongside(StoredPlan(steps, planID), i, j)
  {
  }

  lemma PartUntouched(p: Program, node: Node, planID: nat, j: nat)
    requires Expands(node) && node.nodeID != "" && j < |ExpandNode(p, node)| && planID > 0
    ensures var s := AnnotateStep(NormalizeStatus(ExpandNode(p, node)[j]), planID); Untouched(s) && s.planID == planID
  {
    PartIs(p, node, j);
  }

  lemma CompilesToTemplate(p: Program, order: seq<nat>, planID: nat)
    requires IDsValid(p.nodes) && OrderFits(p, order) && Distinct(order) && DistinctIDs(StepsInOrder(p, order)) && planID > 0
    ensures var t := StoredPlan(StepsInOrder(p, order), planID);
            Template(t) && forall i :: 0 <= i < |t| ==> t[i].planID == planID
  {
    var steps, parts := StepsInOrder(p, order), Parts(p, order);
    var t := StoredPlan(steps, planID);
    StepsAreParts(p, order);
    PartsApart(p, order);
    forall i: nat, j: nat | i < j < |steps| ensures Alongside(t, i, j) {
      PartsAlongside(parts, i, j);
      StoredAlongside(steps, planID, i, j);
    }
    forall i | 0 <= i < |steps| ensures Untouched(t[i]) && t[i].planID == planID {
      var m, j := PartAt(parts, i);
      PartUntouched(p, p.nodes[order[m]], planID, j);
    }
  }

  /** A program whose steps have distinct ids compiles to a plan that is run in line exactly when each of its nodes
      is in line, whichever id the plan is stored under. */
  lemma CompilesInLineIff(p: Program, order: seq<nat>, planID: nat)
    requires IDsValid(p.nodes) && OrderFits(p, order) && Distinct(order) && DistinctIDs(StepsInOrder(p, order)) && planID > 0
    ensures InLineProgram(StepsInOrder(p, order), planID) <==> forall m :: 0 <= m < |order| ==> InLineNode(p.nodes[order[m]])
  {
    var t, parts := StoredPlan(StepsInOrder(p, order), planID), Parts(p, order);
    CompilesToTemplate(p, order, planID);
    StepsAreParts(p, order);
    if forall m :: 0 <= m < |order| ==> InLineNode(p.nodes[order[m]]) {
      forall i | 0 <= i < |t| ensures InLine(t[i]) {
        var m, j := PartAt(parts, i);
        NodeInLine(p, p.nodes[order[m]], planID, j);
      }
    }
    if InLineProgram(StepsInOrder(p, order), planID) {
      forall m | 0 <= m < |order| ensures InLineNode(p.nodes[order[m]]) {
        PartStands(parts, m, 0);
        assert InLine(t[Offset(parts, m)]);
        NodeInLine(p, p.nodes[order[m]], planID, 0);
      }
    }
  }

  // ---- a turn in which everything is allowed ----

  /** Everything is allowed at this moment, and every tool succeeds but that of one step. */
  function Willing(now: int, failing: Option<string>): Answers {
    Answers(false, [], false, now, now, _ => false, _ => Allow, _ => "", _ => false,
            id => failing != Some(id), id => failing != Some(id), _ => true)
  }

  predicate OpenWorld(w: World) {
    !Terminal(w.session.phase) && !w.session.execution.ExecutionBlocked? && w.session.pendingApproval.None?
  }

  ghost predicate FreshWaiting(steps: seq<Step>) {
    forall s :: s in steps && Waiting(s) ==> s.attempt == 0 && s.metadata.retryNotBefore.None?
  }

  predicate InvokedSince(w: World, v: World, id: string) {
    w.log <= v.log && exists j :: |w.log| <= j < |v.log| && v.log[j].stepID == id
  }

  lemma {:induction false} WillingPrepares(approvals: seq<Approval>, steps: seq<Step>, b: Budgets, now: int, failing: Option<string>)
    requires NoneInBackoff(steps, now) && forall m :: 0 <= m < |steps| ==> !Exhausted(steps[m], b)
    ensures var r := PrepareRound(approvals, steps, b, Willing(now, failing));
            r.Prepared? && |r.steps| == |steps|
            && forall m :: 0 <= m < |steps| ==> r.steps[m] == PreparedStep(steps[m], Allow, PolicyAllowed, "")
  {
    if steps != [] {
      WillingPrepares(approvals, steps[1..], b, now, failing);
    }
  }

  lemma RoundTakesPlace(w: World, latest: seq<Step>, s: Step, ps: seq<PreparedStep>, b: Budgets, a: Answers)
    requires OpenWorld(w) && latest == LatestSteps(w.plans) && a.now == w.session.runtimeStartedAt && |ps| > 1
    requires FanoutRound(latest, s, b, a.systemNow).Some?
    requires PrepareRound(w.approvals, RoundSteps(latest, s, b, a.systemNow), b, a) == Prepared(ps)
    ensures TryFanoutRound(w, s, b, a) == RoundDone(ExecuteRound(w, s, ps, b, a))
  {
  }

  /** A round over steps that may all run, in order. */
  lemma WillingRound(w: World, latest: seq<Step>, s: Step, b: Budgets, failing: Option<string>) returns (ps: seq<PreparedStep>)
    requires OpenWorld(w) && latest == LatestSteps(w.plans) && FreshWaiting(latest)
    requires FanoutRound(latest, s, b, w.session.runtimeStartedAt).Some?
    ensures var round := RoundSteps(latest, s, b, w.session.runtimeStartedAt);
            |ps| == |round| > 1 && forall m :: 0 <= m < |round| ==> ps[m] == PreparedStep(round[m], Allow, PolicyAllowed, "")
    ensures PrepareRound(w.approvals, RoundSteps(latest, s, b, w.session.runtimeStartedAt), b,
                         Willing(w.session.runtimeStartedAt, failing)) == Prepared(ps)
    ensures TryFanoutRound(w, s, b, Willing(w.session.runtimeStartedAt, failing))
            == RoundDone(ExecuteRound(w, s, ps, b, Willing(w.session.runtimeStartedAt, failing)))
  {
    var now := w.session.runtimeStartedAt;
    var round := RoundSteps(latest, s, b, now);
    RoundStepsAre(latest, s, b, now);
    assert forall m :: 0 <= m < |round| ==> round[m] in round && round[m] in latest;
    WillingPrepares(w.approvals, round, b, now, failing);
    ps := PrepareRound(w.approvals, round, b, Willing(now, failing)).steps;
    RoundTakesPlace(w, latest, s, ps, b, Willing(now, failing));
  }

  lemma SelectedInRound(latest: seq<Step>, s: Step, b: Budgets, systemNow: int) returns (m: nat)
    requires s in latest && Waiting(s) && FanoutRound(latest, s, b, systemNow).Some?
    ensures m < |RoundSteps(latest, s, b, systemNow)| && RoundSteps(latest, s, b, systemNow)[m] == s
  {
    RoundStepsAre(latest, s, b, systemNow);
    m :| 0 <= m < |RoundSteps(latest, s, b, systemNow)| && RoundSteps(latest, s, b, systemNow)[m] == s;
  }

  lemma {:induction false} LogInvokes(w: World, v: World, ps: seq<PreparedStep>, m: nat)
    requires v.log == w.log + RoundInvocations(ps) && m < |ps| && !ps[m].decision.Deny?
    ensures InvokedSince(w, v, ps[m].step.stepID)
  {
    InvokesPrepared(ps);
    var j :| 0 <= j < |RoundInvocations(ps)| && RoundInvocations(ps)[j].stepID == ps[m].step.stepID;
    assert v.log[|w.log| + j] == RoundInvocations(ps)[j];
  }

  lemma RoundInvokes(w: World, anchor: Step, ps: seq<PreparedStep>, m: nat, b: Budgets, a: Answers)
    requires |ps| > 1 && m < |ps| && !ps[m].decision.Deny?
    ensures InvokedSince(w, ExecuteRound(w, anchor, ps, b, a), ps[m].step.stepID)
  {
    LogInvokes(w, ExecuteRound(w, anchor, ps, b, a), ps, m);
  }

  lemma SingleInvokes(w: World, s: Step, b: Budgets, failing: Option<string>)
    requires OpenWorld(w) && s.planID != 0 && !Exhausted(s, b) && s.metadata.retryNotBefore.None?
    ensures var r := RunStepWithDecision(w, s, None, b, Willing(w.session.runtimeStartedAt, failing));
            r.Ok? && InvokedSince(w, r.value, s.stepID)
  {
    var a := Willing(w.session.runtimeStartedAt, failing);
    assert RunStepWithDecision(w, s, None, b, a) == Ok(ExecuteStep(w, s, PolicyAllowed, b, a));
    assert ExecuteStep(w, s, PolicyAllowed, b, a).log[|w.log|].stepID == s.stepID;
  }

  lemma SelectedComesTo(w: World, s: Step, b: Budgets, a: Answers)
    ensures TryFanoutRound(w, s, b, a).RoundDone? ==> RunSelected(w, s, b, a).world == TryFanoutRound(w, s, b, a).world
    ensures TryFanoutRound(w, s, b, a).RoundDeclined? && RunStepWithDecision(w, s, None, b, a).Ok? ==>
              RunSelected(w, s, b, a).world == RunStepWithDecision(w, s, None, b, a).value
  {
  }

  lemma WillingRoundInvokes(w: World, s: Step, b: Budgets, failing: Option<string>) returns (v: World)
    requires OpenWorld(w) && FreshWaiting(LatestSteps(w.plans)) && s in LatestSteps(w.plans) && Waiting(s)
    requires FanoutRound(LatestSteps(w.plans), s, b, w.session.runtimeStartedAt).Some?
    ensures TryFanoutRound(w, s, b, Willing(w.session.runtimeStartedAt, failing)) == RoundDone(v)
    ensures InvokedSince(w, v, s.stepID)
  {
    var ps := WillingRound(w, LatestSteps(w.plans), s, b, failing);
    var m := SelectedInRound(LatestSteps(w.plans), s, b, w.session.runtimeStartedAt);
    RoundInvokes(w, s, ps, m, b, Willing(w.session.runtimeStartedAt, failing));
    v := ExecuteRound(w, s, ps, b, Willing(w.session.runtimeStartedAt, failing));
  }

  /** A waiting step that is selected runs, by itself or in a round. */
  lemma WillingRuns(w: World, s: Step, b: Budgets, failing: Option<string>)
    requires OpenWorld(w) && FreshWaiting(LatestSteps(w.plans)) && s in LatestSteps(w.plans) && Waiting(s) && s.planID != 0
    ensures InvokedSince(w, RunSelected(w, s, b, Willing(w.session.runtimeStartedAt, failing)).world, s.stepID)
  {
    SelectedComesTo(w, s, b, Willing(w.session.runtimeStartedAt, failing));
    if FanoutRound(LatestSteps(w.plans), s, b, w.session.runtimeStartedAt).Some? {
      var v := WillingRoundInvokes(w, s, b, failing);
    } else {
      assert s in LatestSteps(w.plans) && s.attempt == 0;
      SingleInvokes(w, s, b, failing);
    }
  }

  lemma FirstPendingAt(steps: seq<Step>, i: nat)
    requires i < |steps| && Waiting(steps[i]) && forall m :: 0 <= m < i ==> !Waiting(steps[m])
    ensures FirstPending(steps) == Some(i)
  {
    assert steps[i] in steps;
  }

  /** The session has a plan, and works on no other than its latest. */
  predicate WorksOnLatest(w: World) {
    HasPlan(w.plans) && (w.session.planRef == 0 || w.session.planRef == |w.plans|)
  }

  /** With nothing to go back to, the first waiting step is selected and run. */
  lemma FirstWaitingRuns(w: World, i: nat, b: Budgets)
    requires OpenWorld(w) && WorksOnLatest(w) && FreshWaiting(LatestSteps(w.plans)) && i < |LatestSteps(w.plans)|
    requires Waiting(LatestSteps(w.plans)[i]) && LatestSteps(w.plans)[i].planID != 0
    requires forall m :: 0 <= m < i ==> !Waiting(LatestSteps(w.plans)[m])
    requires PinnedStep(w.session.currentStep, w.session.inFlightStep, LatestSteps(w.plans), b).None?
    ensures var a := Willing(w.session.runtimeStartedAt, None);
            InvokedSince(w, DriverTurn(w, b, a, a).world, LatestSteps(w.plans)[i].stepID)
  {
    var a := Willing(w.session.runtimeStartedAt, None);
    var steps := LatestSteps(w.plans);
    assert PinnedSteps(w) == steps == LatestSteps(w.plans);
    FirstPendingAt(steps, i);
    assert DriverTurn(w, b, a, a) == RunSelected(w, steps[i], b, a);
    WillingRuns(w, steps[i], b, None);
  }

  // ---- interrupting a session that is over ----

  /** Nothing was invoked but this step. */
  predicate OnlyInvokes(w: World, v: World, id: string) {
    w.log <= v.log && forall j :: |w.log| <= j < |v.log| ==> v.log[j].stepID == id
  }

  lemma NotPinned(steps: seq<Step>, t: seq<Step>, k: nat, id: string, b: Budgets)
    requires DistinctIDs(t) && StepsOnTrack(steps, t, k) && k < |t| && steps[k].status.Failed? && Aborting(steps[k])
    requires forall i :: k < i < |t| ==> t[i].stepID != id
    ensures ExecutableStepByID(steps, id, b).None?
  {
    if ExecutableStepByID(steps, id, b).Some? {
      var i := FindStep(steps, id).value;
      assert Kept(steps[i], t[i]);
    }
  }

  lemma TrackIsFresh(steps: seq<Step>, t: seq<Step>, k: nat)
    requires Template(t) && StepsOnTrack(steps, t, k) && (k < |t| ==> steps[k] == t[k] || !Waiting(steps[k]))
    ensures FreshWaiting(steps)
  {
    forall s | s in steps && Waiting(s) ensures s.attempt == 0 && s.metadata.retryNotBefore.None? {
      var i :| 0 <= i < |steps| && steps[i] == s;
      assert Untouched(t[i]);
    }
  }

  /** The session opened again, however that came about. */
  predicate Reopened(w: World, v: World) {
    && OpenWorld(v) && v.plans == w.plans && v.log == w.log
    && v.session.planRef == w.session.planRef && v.session.runtimeStartedAt == w.session.runtimeStartedAt
    && v.session.currentStep == w.session.currentStep && v.session.inFlightStep == w.session.inFlightStep
  }

  lemma NextRunsPastAborted(w: World, v: World, t: seq<Step>, k: nat, b: Budgets)
    requires Template(t) && OnTrack(w, t, k) && k + 1 < |t| && FrontAborted(w, k) && Reopened(w, v)
    ensures var a := Willing(w.session.runtimeStartedAt, None);
            InvokedSince(v, DriverTurn(v, b, a, a).world, t[k+1].stepID)
  {
    var steps := LatestSteps(w.plans);
    NotPinned(steps, t, k, w.session.currentStep, b);
    NotPinned(steps, t, k, w.session.inFlightStep, b);
    TrackIsFresh(steps, t, k);
    assert Untouched(t[k+1]) && steps[k+1] == t[k+1];
    FirstWaitingRuns(v, k + 1, b);
  }

  /** The next turn runs nothing but the step in front, whatever is answered. */
  ghost predicate KeepsToFront(v: World, t: seq<Step>, k: nat, b: Budgets)
    requires k < |t|
  {
    forall opening, a :: OnlyInvokes(v, DriverTurn(v, b, opening, a).world, t[k].stepID)
  }

  lemma TrackKeepsToFront(v: World, t: seq<Step>, k: nat, b: Budgets)
    requires Inv(v) && InLinePlan(t) && OnTrack(v, t, k) && k < |t| && SpanEnd(t, k) == k + 1
    ensures KeepsToFront(v, t, k, b)
  {
    forall opening, a ensures OnlyInvokes(v, DriverTurn(v, b, opening, a).world, t[k].stepID) {
      TurnFollows(v, t, k, b, opening, a);
    }
  }

  lemma OtherRuns(v: World, t: seq<Step>, k: nat, i: nat, b: Budgets, a: Answers)
    requires DistinctIDs(t) && k < i < |t| && InvokedSince(v, DriverTurn(v, b, a, a).world, t[i].stepID)
    ensures !KeepsToFront(v, t, k, b)
  {
    assert t[k].stepID != t[i].stepID;
    assert !OnlyInvokes(v, DriverTurn(v, b, a, a).world, t[k].stepID);
  }

  /** Interrupting a session that is over, where the step in front runs by itself and something comes after it: the
      next turn keeps to the step in front, whatever is answered, exactly when that step has not failed with the
      strategy to abort. */
  lemma InterruptKeepsOrderIff(w: World, t: seq<Step>, k: nat, b: Budgets, now: int)
    requires Inv(w) && InLinePlan(t) && OnTrack(w, t, k) && Terminal(w.session.phase) && k + 1 < |t| && SpanEnd(t, k) == k + 1
    ensures !FrontAborted(w, k) <==> KeepsToFront(MarkSessionInterrupted(w, now), t, k, b)
  {
    var v := MarkSessionInterrupted(w, now);
    if FrontAborted(w, k) {
      NextRunsPastAborted(w, v, t, k, b);
      OtherRuns(v, t, k, k + 1, b, Willing(w.session.runtimeStartedAt, None));
    } else {
      InterruptKeepsTrack(w, t, k, now);
      TrackKeepsToFront(v, t, k, b);
    }
  }

  /** Attaching a task to a session that is over: the same, on the same terms. */
  lemma AttachKeepsOrderIff(w: World, t: seq<Step>, k: nat, b: Budgets)
    requires Inv(w) && InLinePlan(t) && OnTrack(w, t, k) && Terminal(w.session.phase) && k + 1 < |t| && SpanEnd(t, k) == k + 1
    ensures !FrontAborted(w, k) <==> KeepsToFront(AttachTaskTo(w), t, k, b)
  {
    var v := AttachTaskTo(w);
    if FrontAborted(w, k) {
      NextRunsPastAborted(w, v, t, k, b);
      OtherRuns(v, t, k, k + 1, b, Willing(w.session.runtimeStartedAt, None));
    } else {
      AttachKeepsTrack(w, t, k);
      TrackKeepsToFront(v, t, k, b);
    }
  }

  // ---- marking a later step in flight ----

  lemma MarkedIsPinned(v: World, t: seq<Step>, k: nat, i: nat, b: Budgets)
    requires DistinctIDs(t) && StepsOnTrack(LatestSteps(v.plans), t, k) && k < i < |t| && Untouched(t[i])
    requires WorksOnLatest(v) && v.session.inFlightStep == t[i].stepID
    ensures SelectNextStep(v.session.currentStep, v.session.inFlightStep, PinnedSteps(v), LatestSteps(v.plans), b) == RunStep(t[i])
  {
    var steps := LatestSteps(v.plans);
    assert steps[i] == t[i];
    match FindStep(steps, t[i].stepID)
    case Some(j) =>
      assert Kept(steps[j], t[j]);
      SameStep(t, i, j);
    case None =>
  }

  /** A later step that is marked runs next. */
  lemma MarkedRuns(w: World, v: World, t: seq<Step>, k: nat, i: nat, b: Budgets, now: int)
    requires Template(t) && OnTrack(w, t, k) && k < i < |t| && v.session == MarkInFlight(w.session, w.plans, t[i].stepID, now)
    requires v.plans == w.plans && OpenWorld(v)
    ensures var a := Willing(v.session.runtimeStartedAt, None);
            InvokedSince(v, DriverTurn(v, b, a, a).world, t[i].stepID)
  {
    var steps, a := LatestSteps(w.plans), Willing(v.session.runtimeStartedAt, None);
    assert Untouched(t[i]) && steps[i] == t[i] && steps[i] in steps;
    RefersHome(w, t, k, t[i].stepID, now);
    MarkedIsPinned(v, t, k, i, b);
    TrackIsFresh(steps, t, k);
    assert DriverTurn(v, b, a, a) == RunSelected(v, t[i], b, a);
    WillingRuns(v, t[i], b, None);
  }

  /** Marking a step of an open session in flight, where the step in front runs by itself: the next turn keeps to the
      step in front, whatever is answered, exactly when it is no later step that is marked. */
  lemma InFlightKeepsOrderIff(w: World, t: seq<Step>, k: nat, b: Budgets, id: string, now: int)
    requires Inv(w) && InLinePlan(t) && OnTrack(w, t, k) && k < |t| && SpanEnd(t, k) == k + 1
    requires !Terminal(w.session.phase) && w.session.pendingApproval.None? && MarkSessionInFlight(w, b, id, now).Ok?
    ensures (forall i :: k < i < |t| ==> t[i].stepID != id) <==> KeepsToFront(MarkSessionInFlight(w, b, id, now).value, t, k, b)
  {
    var v := MarkSessionInFlight(w, b, id, now).value;
    if i :| k < i < |t| && t[i].stepID == id {
      MarkedRuns(w, v, t, k, i, b, now);
      OtherRuns(v, t, k, i, b, Willing(v.session.runtimeStartedAt, None));
    } else {
      CallKeeps(w, b, InFlightCall(id, now));
      InFlightKeepsTrack(w, t, k, b, id, now);
      TrackKeepsToFront(v, t, k, b);
    }
  }

  // ---- steps that run together ----

  /** What may be said of two turns: if the second runs a step behind the aggregate, the aggregate was completed. */
  ghost predicate WaitsForBlock(v: World, u: World, t: seq<Step>, k: nat, h: nat)
    requires h <= |t|
  {
    (exists i :: h <= i < |t| && InvokedSince(v, u, t[i].stepID)) ==>
      && |LatestSteps(v.plans)| == |t|
      && forall m :: k <= m < h ==> LatestSteps(v.plans)[m].status.Completed?
  }

  lemma RoundStatus(latest: seq<Step>, ps: seq<PreparedStep>, b: Budgets, now: int, failing: string, m: nat)
    requires m < |ps| && forall i :: 0 <= i < |ps| ==> ps[i].decision.Allow?
    ensures RoundResults(latest, ps, b, Willing(now, Some(failing)))[m].status
            == if ps[m].step.stepID == failing then Failed else Completed
  {
    var a := Willing(now, Some(failing));
    assert RoundOutcomes(ps, b, a)[m] == RoundOutcome(ps[m], b, a);
    if LastAggregateIndex(ps) == Some(m) {
      assert RoundOutcomes(ps, b, a)[m].stepID == ps[m].step.stepID;
    }
  }

  lemma MemberStatus(steps: seq<Step>, t: seq<Step>, k: nat, h: nat, ps: seq<PreparedStep>, b: Budgets, now: int, failing: string, i: nat)
    requires DistinctIDs(t) && |steps| == |t| && h <= |t| && k <= i < h && steps[i].stepID == t[i].stepID
    requires PreparesBlock(ps, t, k, h) && forall m :: 0 <= m < |ps| ==> ps[m].decision.Allow?
    ensures var results := RoundResults(steps, ps, b, Willing(now, Some(failing)));
            ReplaceSteps(steps, results)[i].status == if t[i].stepID == failing then Failed else Completed
  {
    var results := RoundResults(steps, ps, b, Willing(now, Some(failing)));
    ResultsAre(steps, ps, b, Willing(now, Some(failing)));
    BlockHasResult(t, k, h, ps, results, i);
    var m := ReplacedBy(steps, results, i);
    assert ResultOf(results[m.value], ps[m.value].step);
    RoundStatus(steps, ps, b, now, failing, m.value);
  }

  /** One member failed with a strategy other than to abort, another completed, and more is to come: the plan goes on. */
  lemma FailedMemberGoesOn(after: seq<Step>, f: nat, c: nat, h: nat, b: Budgets)
    requires f < |after| && c < |after| && h < |after|
    requires !Aborting(after[f]) && after[c].status.Completed? && Unfinished(after[h])
    requires SameAggregate(after[f], after[c]) && Tagged(after[c])
    requires forall i :: 0 <= i < |after| && i != f ==> !after[i].status.Failed?
    ensures VerdictOf(after, b).GoOn?
  {
    assert after[c] in after && MemberOf(after[c], after[f].metadata.aggregateID);
    assert after[h] in after && KeepsPending(after, after[h], b);
    forall s | s in after ensures !DoomsPlan(after, s, b) {
      var i :| 0 <= i < |after| && after[i] == s;
    }
  }

  lemma TwoInRound(round: seq<Step>, s: Step, s': Step)
    requires s in round && s' in round && s.stepID != s'.stepID
    ensures |round| > 1
  {
    var i :| 0 <= i < |round| && round[i] == s;
    var j :| 0 <= j < |round| && round[j] == s';
  }

  lemma RoundTurn(w: World, s: Step, ps: seq<PreparedStep>, b: Budgets, a: Answers)
    requires OpenWorld(w) && HasPlan(w.plans) && !a.refused && |ps| > 1
    requires SelectNextStep(w.session.currentStep, w.session.inFlightStep, PinnedSteps(w), LatestSteps(w.plans), b) == RunStep(s)
    requires TryFanoutRound(w, s, b, a) == RoundDone(ExecuteRound(w, s, ps, b, a))
    ensures DriverTurn(w, b, a, a).world == ExecuteRound(w, s, ps, b, a)
  {
  }

  lemma RoundOfTwo(latest: seq<Step>, s: Step, other: Step, b: Budgets, systemNow: int)
    requires Concurrent(s) && s.stepID != other.stepID
    requires s in RoundSteps(latest, s, b, systemNow) && other in RoundSteps(latest, s, b, systemNow)
    ensures FanoutRound(latest, s, b, systemNow).Some?
  {
    TwoInRound(RoundSteps(latest, s, b, systemNow), s, other);
  }

  lemma RoundAtFront(w: World, t: seq<Step>, k: nat, b: Budgets)
    requires Template(t) && OnTrack(w, t, k) && k + 1 < |t| && LatestSteps(w.plans)[k] == t[k]
    requires Concurrent(t[k]) && k + 1 < BlockEnd(t, k)
    ensures FanoutRound(LatestSteps(w.plans), t[k], b, w.session.runtimeStartedAt).Some?
  {
    var latest, next := LatestSteps(w.plans), t[k+1];
    assert t[k].stepID != next.stepID;
    BlockInRound(w, t, k, k, b, w.session.runtimeStartedAt);
    BlockInRound(w, t, k, k + 1, b, w.session.runtimeStartedAt);
    RoundOfTwo(latest, t[k], next, b, w.session.runtimeStartedAt);
  }

  /** The round in which one member fails, which is not the last. */
  ghost predicate FailingRoundOf(w: World, latest: seq<Step>, s: Step, ps: seq<PreparedStep>, b: Budgets, failing: string) {
    var a := Willing(w.session.runtimeStartedAt, Some(failing));
    && |ps| > 1 && (forall m :: 0 <= m < |ps| ==> ps[m].decision.Allow?) && ps[|ps|-1].step.stepID != failing
    && PrepareRound(w.approvals, RoundSteps(latest, s, b, w.session.runtimeStartedAt), b, a) == Prepared(ps)
    && TryFanoutRound(w, s, b, a) == RoundDone(ExecuteRound(w, s, ps, b, a))
  }

  lemma FrontPrepares(w: World, latest: seq<Step>, s: Step, b: Budgets, failing: string) returns (ps: seq<PreparedStep>)
    requires OpenWorld(w) && latest == LatestSteps(w.plans) && FreshWaiting(latest)
    requires FanoutRound(latest, s, b, w.session.runtimeStartedAt).Some?
    requires var round := RoundSteps(latest, s, b, w.session.runtimeStartedAt); round != [] && round[|round|-1].stepID != failing
    ensures FailingRoundOf(w, latest, s, ps, b, failing)
  {
    ps := WillingRound(w, latest, s, b, Some(failing));
  }

  lemma PreparedIsBlock(w: World, t: seq<Step>, k: nat, ps: seq<PreparedStep>, b: Budgets, a: Answers)
    requires Template(t) && OnTrack(w, t, k) && k < |t| && LatestSteps(w.plans)[k] == t[k] && Concurrent(t[k])
    requires PrepareRound(w.approvals, RoundSteps(LatestSteps(w.plans), t[k], b, a.systemNow), b, a) == Prepared(ps)
    ensures PreparesBlock(ps, t, k, BlockEnd(t, k))
  {
    RoundPrepares(w, t, k, b, a);
  }

  lemma FrontTurn(w: World, t: seq<Step>, k: nat, ps: seq<PreparedStep>, b: Budgets, a: Answers)
    requires Template(t) && OnTrack(w, t, k) && OpenWorld(w) && k < |t| && LatestSteps(w.plans)[k] == t[k] && !a.refused && |ps| > 1
    requires TryFanoutRound(w, t[k], b, a) == RoundDone(ExecuteRound(w, t[k], ps, b, a))
    ensures DriverTurn(w, b, a, a).world == ExecuteRound(w, t[k], ps, b, a)
  {
    assert Untouched(t[k]);
    SelectsFront(w, t, k, b);
    RoundTurn(w, t[k], ps, b, a);
  }

  /** A member other than the one the round ends with. */
  lemma NotLast(w: World, t: seq<Step>, k: nat, b: Budgets) returns (f: nat)
    requires Template(t) && OnTrack(w, t, k) && k + 1 < |t| && LatestSteps(w.plans)[k] == t[k]
    requires Concurrent(t[k]) && k + 1 < BlockEnd(t, k)
    ensures var round := RoundSteps(LatestSteps(w.plans), t[k], b, w.session.runtimeStartedAt);
            f in {k, k + 1} && round != [] && round[|round|-1].stepID != t[f].stepID
  {
    BlockInRound(w, t, k, k, b, w.session.runtimeStartedAt);
    var round := RoundSteps(LatestSteps(w.plans), t[k], b, w.session.runtimeStartedAt);
    f := if round[|round|-1].stepID == t[k].stepID then k + 1 else k;
  }

  /** A round is due, none of its steps is held back, and it does not end with step `f`. */
  lemma FrontRound(w: World, t: seq<Step>, k: nat, b: Budgets) returns (f: nat)
    requires Template(t) && OnTrack(w, t, k) && k + 1 < |t| && LatestSteps(w.plans)[k] == t[k]
    requires Concurrent(t[k]) && k + 1 < BlockEnd(t, k)
    ensures f in {k, k + 1} && FreshWaiting(LatestSteps(w.plans)) && LatestSteps(w.plans) == LatestSteps(w.plans)
    ensures FanoutRound(LatestSteps(w.plans), t[k], b, w.session.runtimeStartedAt).Some?
    ensures var round := RoundSteps(LatestSteps(w.plans), t[k], b, w.session.runtimeStartedAt);
            round != [] && round[|round|-1].stepID != t[f].stepID
  {
    f := NotLast(w, t, k, b);
    RoundAtFront(w, t, k, b);
    TrackIsFresh(LatestSteps(w.plans), t, k);
  }

  lemma BlockStatus(steps: seq<Step>, t: seq<Step>, k: nat, h: nat, ps: seq<PreparedStep>, b: Budgets, now: int, f: nat)
    requires DistinctIDs(t) && |steps| == |t| && k <= f < h <= |t| && forall i :: 0 <= i < |t| ==> steps[i].stepID == t[i].stepID
    requires PreparesBlock(ps, t, k, h) && forall m :: 0 <= m < |ps| ==> ps[m].decision.Allow?
    ensures var after := ReplaceSteps(steps, RoundResults(steps, ps, b, Willing(now, Some(t[f].stepID))));
            forall i :: k <= i < h ==> after[i].status == if i == f then Failed else Completed
  {
    var after := ReplaceSteps(steps, RoundResults(steps, ps, b, Willing(now, Some(t[f].stepID))));
    forall i | k <= i < h ensures after[i].status == if i == f then Failed else Completed {
      MemberStatus(steps, t, k, h, ps, b, now, t[f].stepID, i);
      if t[i].stepID == t[f].stepID {
        SameStep(t, i, f);
      }
    }
  }

  lemma TrackIDs(steps: seq<Step>, t: seq<Step>, k: nat)
    requires StepsOnTrack(steps, t, k)
    ensures |steps| == |t| && forall i :: 0 <= i < |t| ==> steps[i].stepID == t[i].stepID
  {
    forall i | 0 <= i < |t| ensures steps[i].stepID == t[i].stepID {
      assert Kept(steps[i], t[i]);
    }
  }

  lemma FailingRoundStarts(w: World, t: seq<Step>, k: nat, b: Budgets) returns (f: nat, ps: seq<PreparedStep>)
    requires Template(t) && OnTrack(w, t, k) && OpenWorld(w) && k + 1 < |t| && LatestSteps(w.plans)[k] == t[k]
    requires Concurrent(t[k]) && k + 1 < BlockEnd(t, k)
    ensures f in {k, k + 1} && FailingRoundOf(w, LatestSteps(w.plans), t[k], ps, b, t[f].stepID)
  {
    f := FrontRound(w, t, k, b);
    var latest, failing := LatestSteps(w.plans), t[f].stepID;
    ps := FrontPrepares(w, latest, t[k], b, failing);
  }

  lemma FailingRoundTurns(w: World, t: seq<Step>, k: nat, ps: seq<PreparedStep>, b: Budgets, failing: string)
    requires Template(t) && OnTrack(w, t, k) && OpenWorld(w) && k + 1 < |t| && LatestSteps(w.plans)[k] == t[k] && Concurrent(t[k])
    requires FailingRoundOf(w, LatestSteps(w.plans), t[k], ps, b, failing)
    ensures PreparesBlock(ps, t, k, BlockEnd(t, k))
    ensures var a := Willing(w.session.runtimeStartedAt, Some(failing));
            DriverTurn(w, b, a, a).world == ExecuteRound(w, t[k], ps, b, a)
  {
    PreparedIsBlock(w, t, k, ps, b, Willing(w.session.runtimeStartedAt, Some(failing)));
    FrontTurn(w, t, k, ps, b, Willing(w.session.runtimeStartedAt, Some(failing)));
  }

  /** That member fails, all others succeed. */
  lemma FailingRound(w: World, t: seq<Step>, k: nat, b: Budgets)
    returns (f: nat, a: Answers, v: World, ps: seq<PreparedStep>, after: seq<Step>)
    requires Template(t) && OnTrack(w, t, k) && OpenWorld(w) && k + 1 < |t| && LatestSteps(w.plans)[k] == t[k]
    requires Concurrent(t[k]) && k + 1 < BlockEnd(t, k)
    ensures f in {k, k + 1} && DriverTurn(w, b, a, a).world == v && RoundLeft(w, v, t, k, BlockEnd(t, k), ps, after, b)
    ensures v.session.currentStep != t[f].stepID
    ensures forall i :: k <= i < BlockEnd(t, k) ==> after[i].status == if i == f then Failed else Completed
  {
    f, ps := FailingRoundStarts(w, t, k, b);
    FailingRoundTurns(w, t, k, ps, b, t[f].stepID);
    a := Willing(w.session.runtimeStartedAt, Some(t[f].stepID));
    v := ExecuteRound(w, t[k], ps, b, a);
    after := FailingRoundLeaves(w, t, k, f, ps, b);
  }

  lemma FailingRoundLeaves(w: World, t: seq<Step>, k: nat, f: nat, ps: seq<PreparedStep>, b: Budgets) returns (after: seq<Step>)
    requires Template(t) && OnTrack(w, t, k) && OpenWorld(w) && k < |t| && k <= f < BlockEnd(t, k)
    requires PreparesBlock(ps, t, k, BlockEnd(t, k)) && |ps| > 1 && forall m :: 0 <= m < |ps| ==> ps[m].decision.Allow?
    ensures var a := Willing(w.session.runtimeStartedAt, Some(t[f].stepID));
            RoundLeft(w, ExecuteRound(w, t[k], ps, b, a), t, k, BlockEnd(t, k), ps, after, b)
    ensures forall i :: k <= i < BlockEnd(t, k) ==> after[i].status == if i == f then Failed else Completed
  {
    var a := Willing(w.session.runtimeStartedAt, Some(t[f].stepID));
    TrackIDs(LatestSteps(w.plans), t, k);
    RoundLeaves(w, t[k], t, k, BlockEnd(t, k), ps, b, a);
    BlockStatus(LatestSteps(w.plans), t, k, BlockEnd(t, k), ps, b, w.session.runtimeStartedAt, f);
    after := ReplaceSteps(LatestSteps(w.plans), RoundResults(LatestSteps(w.plans), ps, b, a));
  }

  /** The plan with one member failed: it goes on, nothing is pinned, and what comes behind waits first. */
  lemma AfterFailure(steps: seq<Step>, after: seq<Step>, t: seq<Step>, k: nat, f: nat, b: Budgets)
    requires Template(t) && StepsOnTrack(steps, t, k) && k < |t| && k + 1 < BlockEnd(t, k) < |t| && !Aborting(t[k])
    requires f in {k, k + 1} && BlockReplaced(steps, after, t, k, BlockEnd(t, k))
    requires forall i :: k <= i < BlockEnd(t, k) ==> after[i].status == if i == f then Failed else Completed
    ensures VerdictOf(after, b).GoOn?
  {
    var c := if f == k then k + 1 else k;
    BlockBetween(steps, after, t, k, BlockEnd(t, k), f);
    FailedAndCompleted(steps, after, t, k, f, c);
    FailedMemberGoesOn(after, f, c, BlockEnd(t, k), b);
  }

  lemma FailedAndCompleted(steps: seq<Step>, after: seq<Step>, t: seq<Step>, k: nat, f: nat, c: nat)
    requires Uniform(t) && k + 1 < |t| && k + 1 < BlockEnd(t, k) && !Aborting(t[k])
    requires f in {k, k + 1} && c in {k, k + 1} && BlockReplaced(steps, after, t, k, BlockEnd(t, k))
    ensures !Aborting(after[f]) && SameAggregate(after[f], after[c]) && Tagged(after[c])
  {
    MemberRules(steps, after, t, k, f);
    MemberRules(steps, after, t, k, c);
  }

  lemma MemberRules(steps: seq<Step>, after: seq<Step>, t: seq<Step>, k: nat, i: nat)
    requires Uniform(t) && k + 1 < |t| && k + 1 < BlockEnd(t, k) && i in {k, k + 1}
    requires BlockReplaced(steps, after, t, k, BlockEnd(t, k))
    ensures after[i].onFail == t[k].onFail && SameAggregate(t[k], after[i])
  {
    BlockRules(t, k, k + 1);
    assert ResultOf(after[i], t[i]);
  }

  lemma NextRuns(v: World, after: seq<Step>, t: seq<Step>, k: nat, h: nat, f: nat, b: Budgets)
    requires OpenWorld(v) && WorksOnLatest(v) && LatestSteps(v.plans) == after
    requires Template(t) && |after| == |t| && k <= f < h < |t| && after[f].status.Failed?
    requires forall i :: 0 <= i < |t| ==> after[i].stepID == t[i].stepID
    requires forall i :: 0 <= i < h && i != f ==> after[i].status.Completed?
    requires forall i :: h <= i < |t| ==> after[i] == t[i]
    requires v.session.currentStep != t[f].stepID && exists i :: k <= i < h && v.session.currentStep == t[i].stepID
    requires v.session.inFlightStep == ""
    ensures var a := Willing(v.session.runtimeStartedAt, None);
            InvokedSince(v, DriverTurn(v, b, a, a).world, t[h].stepID)
  {
    assert Untouched(t[h]) && after[h] == t[h];
    CurrentIsCompleted(v, after, t, k, h, f, b);
    BehindIsFresh(after, t, h, f);
    FirstWaitingRuns(v, h, b);
  }

  /** The failed member leaves the plan going on, and the next turn runs what comes behind. */
  lemma RunsBehindFailure(w: World, v: World, t: seq<Step>, k: nat, f: nat, ps: seq<PreparedStep>, after: seq<Step>, b: Budgets)
    requires Template(t) && OnTrack(w, t, k) && k < |t| && k + 1 < BlockEnd(t, k) < |t| && !Aborting(t[k])
    requires f in {k, k + 1} && RoundLeft(w, v, t, k, BlockEnd(t, k), ps, after, b) && v.session.currentStep != t[f].stepID
    requires forall i :: k <= i < BlockEnd(t, k) ==> after[i].status == if i == f then Failed else Completed
    ensures var a := Willing(v.session.runtimeStartedAt, None);
            InvokedSince(v, DriverTurn(v, b, a, a).world, t[BlockEnd(t, k)].stepID)
  {
    AfterFailure(LatestSteps(w.plans), after, t, k, f, b);
    BlockBetween(LatestSteps(w.plans), after, t, k, BlockEnd(t, k), f);
    NextRuns(v, after, t, k, BlockEnd(t, k), f, b);
  }

  lemma BlockRules(t: seq<Step>, k: nat, i: nat)
    requires Uniform(t) && k < |t| && k < i < BlockEnd(t, k)
    ensures SameAggregate(t[k], t[i]) && SameAggregate(t[i], t[k]) && t[i].onFail == t[k].onFail
  {
    assert Alongside(t, k, i);
  }

  /** Around the one failed step: completed before the end of the block, as stored after it. */
  lemma BlockBetween(steps: seq<Step>, after: seq<Step>, t: seq<Step>, k: nat, h: nat, f: nat)
    requires StepsOnTrack(steps, t, k) && k <= f < h <= |t| && BlockReplaced(steps, after, t, k, h)
    requires forall i :: k <= i < h ==> after[i].status == if i == f then Failed else Completed
    requires Template(t)
    ensures |after| == |t| && forall i :: 0 <= i < h && i != f ==> after[i].status.Completed?
    ensures forall i :: h <= i < |t| ==> after[i] == t[i] && after[i].status.Pending?
    ensures forall i :: 0 <= i < |t| ==> after[i].stepID == t[i].stepID
  {
    forall i | h <= i < |t| ensures after[i] == t[i] && after[i].status.Pending? {
      assert Untouched(t[i]);
    }
    forall i | 0 <= i < |t| ensures after[i].stepID == t[i].stepID {
      if k <= i < h {
        assert ResultOf(after[i], t[i]);
      } else {
        assert Kept(steps[i], t[i]);
      }
    }
  }

  lemma BehindIsFresh(after: seq<Step>, t: seq<Step>, h: nat, f: nat)
    requires Template(t) && |after| == |t| && f < h <= |t| && after[f].status.Failed?
    requires forall i :: 0 <= i < h && i != f ==> after[i].status.Completed?
    requires forall i :: h <= i < |t| ==> after[i] == t[i]
    ensures FreshWaiting(after)
  {
    forall s | s in after && Waiting(s) ensures s.attempt == 0 && s.metadata.retryNotBefore.None? {
      var i :| 0 <= i < |after| && after[i] == s;
      assert Untouched(t[i]);
    }
  }

  lemma CurrentIsCompleted(v: World, after: seq<Step>, t: seq<Step>, k: nat, h: nat, f: nat, b: Budgets)
    requires DistinctIDs(t) && |after| == |t| && k <= f < h <= |t| && v.session.inFlightStep == ""
    requires forall i :: 0 <= i < |t| ==> after[i].stepID == t[i].stepID
    requires forall i :: 0 <= i < h && i != f ==> after[i].status.Completed?
    requires v.session.currentStep != t[f].stepID && exists i :: k <= i < h && v.session.currentStep == t[i].stepID
    ensures PinnedStep(v.session.currentStep, v.session.inFlightStep, after, b).None?
  {
    var i :| k <= i < h && v.session.currentStep == t[i].stepID;
    match FindStep(after, v.session.currentStep)
    case Some(j) => SameStep(t, i, j);
    case None =>
  }

  /** Nothing before the end of a block spans beyond it. */
  lemma SpanStays(t: seq<Step>, k: nat, e: nat)
    requires Uniform(t) && k < |t| && e < BlockEnd(t, k)
    ensures SpanEnd(t, e) <= BlockEnd(t, k)
  {
  }

  /** What may run while `e` is in front is behind the block only if the front is past the block. */
  lemma BehindMeansPast(t: seq<Step>, k: nat, e: nat, i: nat, x: nat)
    requires Uniform(t) && DistinctIDs(t) && k < |t| && BlockEnd(t, k) <= i < |t| && e < |t|
    requires e <= x < SpanEnd(t, e) && t[x].stepID == t[i].stepID
    ensures e >= BlockEnd(t, k)
  {
    SameStep(t, i, x);
    if e < BlockEnd(t, k) {
      SpanStays(t, k, e);
    }
  }

  lemma FollowsWaits(v: World, u: World, t: seq<Step>, k: nat, e: nat, i: nat)
    requires Uniform(t) && DistinctIDs(t) && k < |t| && BlockEnd(t, k) <= i < |t|
    requires OnTrack(v, t, e) && InvokesFront(v, u, t, e) && InvokedSince(v, u, t[i].stepID)
    ensures e >= BlockEnd(t, k)
  {
    var j :| |v.log| <= j < |u.log| && u.log[j].stepID == t[i].stepID;
    var x :| e <= x < SpanEnd(t, e) && u.log[j].stepID == t[x].stepID;
    BehindMeansPast(t, k, e, i, x);
  }

  /** On the track: a step behind runs only once the block is completed. */
  lemma TrackWaits(v: World, u: World, t: seq<Step>, k: nat, b: Budgets, opening: Answers, a: Answers)
    requires Inv(v) && InLinePlan(t) && SomewhereOn(v, t) && k < |t| && u == DriverTurn(v, b, opening, a).world
    ensures WaitsForBlock(v, u, t, k, BlockEnd(t, k))
  {
    if i :| BlockEnd(t, k) <= i < |t| && InvokedSince(v, u, t[i].stepID) {
      var e: nat :| OnTrack(v, t, e);
      TurnFollows(v, t, e, b, opening, a);
      FollowsWaits(v, u, t, k, e, i);
    }
  }

  lemma BlockInLine(t: seq<Step>, k: nat)
    requires Template(t) && k < |t| && Aborting(t[k])
    requires forall i :: 0 <= i < |t| && !(k <= i < BlockEnd(t, k)) ==> InLine(t[i])
    ensures InLinePlan(t)
  {
    forall i | 0 <= i < |t| ensures InLine(t[i]) {
      if k < i < BlockEnd(t, k) {
        BlockRules(t, k, i);
      }
    }
  }

  lemma TwoTurnsWait(w: World, t: seq<Step>, k: nat, b: Budgets, o1: Answers, a1: Answers, o2: Answers, a2: Answers)
    requires Inv(w) && InLinePlan(t) && OnTrack(w, t, k) && k < |t|
    ensures var v := DriverTurn(w, b, o1, a1).world;
            WaitsForBlock(v, DriverTurn(v, b, o2, a2).world, t, k, BlockEnd(t, k))
  {
    var v := DriverTurn(w, b, o1, a1).world;
    TurnFollows(w, t, k, b, o1, a1);
    TurnKeeps(w, b, o1, a1);
    TrackWaits(v, DriverTurn(v, b, o2, a2).world, t, k, b, o2, a2);
  }

  lemma FailureLetsBehindRun(w: World, t: seq<Step>, k: nat, b: Budgets) returns (o1: Answers, a1: Answers, o2: Answers, a2: Answers)
    requires Template(t) && OnTrack(w, t, k) && OpenWorld(w) && k < |t| && LatestSteps(w.plans)[k] == t[k]
    requires Concurrent(t[k]) && k + 1 < BlockEnd(t, k) < |t| && !Aborting(t[k])
    ensures var v := DriverTurn(w, b, o1, a1).world;
            !WaitsForBlock(v, DriverTurn(v, b, o2, a2).world, t, k, BlockEnd(t, k))
  {
    var f, a, v, ps, after := FailingRound(w, t, k, b);
    RunsBehindFailure(w, v, t, k, f, ps, after, b);
    o1, a1 := a, a;
    o2, a2 := Willing(v.session.runtimeStartedAt, None), Willing(v.session.runtimeStartedAt, None);
    BehindRanEarly(v, DriverTurn(v, b, o2, a2).world, t, k, f, after);
  }

  lemma BehindRanEarly(v: World, u: World, t: seq<Step>, k: nat, f: nat, after: seq<Step>)
    requires k < |t| && k <= f < BlockEnd(t, k) < |t| && InvokedSince(v, u, t[BlockEnd(t, k)].stepID)
    requires LatestSteps(v.plans) == after && |after| == |t| && after[f].status.Failed?
    ensures !WaitsForBlock(v, u, t, k, BlockEnd(t, k))
  {
  }

  /** Two members of an aggregate that run together are in front, and something comes behind it, all else in line:
      whatever is answered in this turn and the next, what is behind waits for the whole aggregate, exactly when
      its strategy is to abort. */
  lemma ConcurrentKeepsOrderIff(w: World, t: seq<Step>, k: nat, b: Budgets)
    requires Inv(w) && Template(t) && OnTrack(w, t, k) && OpenWorld(w) && k < |t| && LatestSteps(w.plans)[k] == t[k]
    requires Concurrent(t[k]) && k + 1 < BlockEnd(t, k) < |t|
    requires forall i :: 0 <= i < |t| && !(k <= i < BlockEnd(t, k)) ==> InLine(t[i])
    ensures Aborting(t[k]) <==>
              forall o1, a1, o2, a2 ::
                var v := DriverTurn(w, b, o1, a1).world;
                WaitsForBlock(v, DriverTurn(v, b, o2, a2).world, t, k, BlockEnd(t, k))
  {
    if Aborting(t[k]) {
      BlockInLine(t, k);
      forall o1, a1, o2, a2
        ensures var v := DriverTurn(w, b, o1, a1).world;
                WaitsForBlock(v, DriverTurn(v, b, o2, a2).world, t, k, BlockEnd(t, k))
      {
        TwoTurnsWait(w, t, k, b, o1, a1, o2, a2);
      }
    } else {
      var o1, a1, o2, a2 := FailureLetsBehindRun(w, t, k, b);
    }
  }
}

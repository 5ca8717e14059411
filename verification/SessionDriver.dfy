/** The service that drives a session, as a class over the records it keeps. Every method is tied to the state
    machine of SessionKernel: the books after a call are the ones it prescribes for the books before. */
module SessionDriver {
  import opened PlanModel
  import opened Aggregates
  import opened PlanOutcome
  import opened StepSelection
  import opened SessionKernel
  import opened DriverBudget
  import opened DriverRun
  import opened FanoutRounds

  method StatusForSpec(steps: seq<Step>, b: Budgets) returns (status: PlanStatus)
    ensures status == PlanStatusFor(VerdictOf(steps, b))
  {
    var outcome := PlanExecutionOutcomeForSpec(steps, b);
    status := PlanStatusFor(outcome.verdict);
  }

  class Service {
    const budgets: Budgets
    var session: Session
    var plans: seq<Plan>
    var approvals: seq<Approval>
    var blocked: seq<BlockedStatus>
    var log: seq<Invocation>

    /** A new session in a store that holds the plans of other sessions. */
    constructor (session: Session, others: seq<Plan>, budgets: Budgets)
      ensures this.session == session && this.budgets == budgets
      ensures Books() == World(session, others, [], [], [])
    {
      this.session, this.budgets, plans := session, budgets, others;
      approvals, blocked, log := [], [], [];
    }

    function Books(): World
      reads this
    {
      World(session, plans, approvals, blocked, log)
    }

    // ---- the plan store ----

    method UpdateLatestPlanStep(given: Step)
      modifies `plans
      ensures plans == WriteStep(old(plans), given, budgets)
    {
      var k := PlanIndex(plans, given.planID);
      if k == |plans| {
        return;
      }
      var step := AnnotateStep(given, plans[k].planID);
      var steps := plans[k].steps;
      for i := 0 to |steps|
        invariant forall j :: 0 <= j < i ==> steps[j].stepID != step.stepID
      {
        if steps[i].stepID == step.stepID {
          steps := steps[i := step];
          var status := StatusForSpec(steps, budgets);
          plans := plans[k := plans[k].(steps := steps, status := status)];
          return;
        }
      }
    }

    method UpdateLatestPlanSteps(results: seq<Step>)
      modifies `plans
      ensures plans == WriteSteps(old(plans), results, budgets)
    {
      if results == [] || PlanIndex(plans, results[0].planID) == |plans| {
        return;
      }
      var k := PlanIndex(plans, results[0].planID);
      var steps, changed := OverwriteSteps(plans[k].steps, results, plans[k].planID);
      if changed {
        var status := StatusForSpec(steps, budgets);
        plans := plans[k := plans[k].(steps := steps, status := status)];
      }
    }

    // ---- running one step ----

    method AggregateReady(step: Step) returns (ready: bool)
      ensures ready <==> (HasPlan(plans) && VerificationReady(ReplaceStep(LatestSteps(plans), step.(status := Completed)),
                                                           step.metadata.aggregateID, budgets)
                          && exists m :: m in ReplaceStep(LatestSteps(plans), step.(status := Completed))
                                         && MemberOf(m, step.metadata.aggregateID))
    {
      if !HasPlan(plans) {
        return false;
      }
      var simulated := ReplaceStep(LatestSteps(plans), step.(status := Completed));
      ready := AggregateVerificationReady(simulated, step.metadata.aggregateID, budgets);
      var known := AggregateKnown(simulated, step.metadata.aggregateID);
      ready := ready && known;
    }

    method Verify(step: Step, a: Answers) returns (verified: bool)
      ensures verified <==> VerifiedAs(Latest(plans), step, budgets, a)
    {
      if !step.metadata.verifyAggregate {
        return a.verifierOK(step.stepID);
      }
      var success := !a.toolFailed(step.stepID) && a.toolOK(step.stepID);
      if !success {
        return false;
      }
      if step.metadata.aggregateVerify && Tagged(step) {
        var ready := AggregateReady(step);
        return !ready || a.aggregateOK(step.stepID);
      }
      return true;
    }

    method NextPhaseAfter(ran: Step, verified: bool) returns (next: Phase)
      ensures next == PhaseAfter(Latest(plans), ran, verified, budgets)
    {
      next := PhaseAfterStep(ran, verified, budgets);
      if Reconciles(ran, verified, budgets) && HasPlan(plans) {
        var outcome := PlanExecutionOutcomeForSpec(ReplaceStep(LatestSteps(plans), ran), budgets);
        next := PhaseForVerdict(outcome.verdict);
      }
    }

    method RequestApproval(step: Step, a: Answers)
      modifies this
      ensures Books() == AskFor(old(Books()), step, budgets, a)
    {
      var parked := step.(status := Blocked);
      session := WithPlanRef(session, step);
      while !session.phase.Execute? && !Terminal(session.phase)
        invariant AdvanceToExecute(session.phase) == AdvanceToExecute(old(session.phase))
        invariant session == WithPlanRef(old(session), step).(phase := session.phase)
        invariant plans == old(plans) && approvals == old(approvals) && blocked == old(blocked) && log == old(log)
        decreases StepsToExecute(session.phase)
      {
        session := session.(phase := NextPhase(session.phase));
      }
      session := session.(execution := AwaitingApproval, pendingApproval := Some(|approvals|), currentStep := step.stepID);
      approvals := approvals + [Approval(ApprovalPending, NoReply, step.stepID, step.toolName, parked, a.scopeOf(step))];
      UpdateLatestPlanStep(parked);
    }

    method RefuseStep(step: Step)
      modifies this
      ensures Books() == DenyStep(old(Books()), step, budgets)
    {
      session := WithCurrentStep(WithPlanRef(session, step), step.stepID);
      session := session.(phase := PhaseFailed, execution := Idle, inFlightStep := "");
      UpdateLatestPlanStep(step.(attempt := step.attempt + 1, status := Failed));
    }

    method InvokeStep(given: Step, basis: Basis, a: Answers)
      modifies this
      ensures Books() == ExecuteStep(old(Books()), given, basis, budgets, a)
    {
      var step := given.(attempt := given.attempt + 1);
      var state := MarkInFlight(session, plans, step.stepID, a.now);
      var verified := Verify(step, a);
      if verified {
        step := step.(status := Completed);
      } else {
        step := step.(status := Failed);
        state := state.(retryCount := state.retryCount + 1);
      }
      assert step == Ran(Books(), given, budgets, a);
      var next := NextPhaseAfter(step, verified);
      step := WithBackoff(step, next, a.now);
      state := WithCurrentStep(state, given.stepID).(phase := next, execution := Idle, inFlightStep := "");
      if basis.ByApproval? && state.pendingApproval == Some(basis.id) {
        state := state.(pendingApproval := None);
      }
      session, approvals := state, SettleApproval(approvals, basis);
      log := log + [Invocation(given.planID, given.stepID, a.scopeOf(given), basis)];
      assert session == ExecuteStep(old(Books()), given, basis, budgets, a).session;
      UpdateLatestPlanStep(step);
    }

    method RunStepWithDecision(given: Step, forced: Option<Grant>, a: Answers) returns (fault: Option<Fault>)
      modifies this
      ensures SessionKernel.RunStepWithDecision(old(Books()), given, forced, budgets, a)
              == (match fault case None => Ok(Books()) case Some(f) => Err(f))
      ensures fault.Some? ==> Books() == old(Books())
    {
      var step := AnnotateStep(given, session.planRef);
      fault := StepGuard(session, budgets, step, forced, a);
      if fault.Some? {
        return;
      }
      var (decision, basis) := DecisionFor(approvals, step, forced, a);
      match decision
      case Ask => RequestApproval(step, a);
      case Deny => RefuseStep(step);
      case Allow => InvokeStep(step, basis, a);
    }

    // ---- fan-out rounds ----

    method RoundGuard(now: int) returns (fault: Option<Fault>)
      ensures fault == (if Terminal(session.phase) then Some(SessionTerminal)
                        else if session.execution.ExecutionBlocked? then Some(SessionBlocked)
                        else if session.pendingApproval.Some? then Some(SessionAwaitingApproval)
                        else RuntimeBudgetFault(session, budgets, now))
    {
      if Terminal(session.phase) {
        return Some(SessionTerminal);
      }
      if session.execution.ExecutionBlocked? {
        return Some(SessionBlocked);
      }
      if session.pendingApproval.Some? {
        return Some(SessionAwaitingApproval);
      }
      fault := RuntimeBudgetFault(session, budgets, now);
    }

    method PersistRound(anchor: Step, ps: seq<PreparedStep>, a: Answers)
      requires |ps| > 1
      modifies this
      ensures Books() == ExecuteRound(old(Books()), anchor, ps, budgets, a)
    {
      var latest := LatestSteps(plans);
      var results, retryFailures := SettleRound(latest, ps, budgets, a);
      var outcome := PlanExecutionOutcomeForSpec(ReplaceSteps(latest, results), budgets);
      FinishRound(anchor.stepID, results[|results|-1].stepID, retryFailures, outcome.verdict, a.now);
      log := log + RoundInvocations(ps);
      UpdateLatestPlanSteps(results);
    }

    /** The session after a round: marked in flight at the anchor, then moved on by the plan's outcome. */
    method FinishRound(anchorID: string, lastID: string, retryFailures: nat, verdict: Verdict, now: int)
      modifies `session
      ensures session == RoundSession(old(session), plans, anchorID, lastID, retryFailures, verdict, now)
    {
      var working := WithCurrentStep(session, anchorID);
      working := working.(runtimeStartedAt := MarkInFlight(session, plans, anchorID, now).runtimeStartedAt);
      working := working.(retryCount := working.retryCount + retryFailures, phase := PhaseForVerdict(verdict));
      session := WithCurrentStep(working, lastID).(execution := Idle, inFlightStep := "");
    }

    method TryRunFanoutRound(selected: Step, a: Answers) returns (handled: bool, fault: Option<Fault>)
      modifies this
      ensures TryFanoutRound(old(Books()), selected, budgets, a)
              == (match fault
                  case Some(f) => RoundFailed(f)
                  case None => if handled then RoundDone(Books()) else RoundDeclined)
      ensures !handled || fault.Some? ==> Books() == old(Books())
    {
      handled := false;
      fault := None;
      var round := FanoutRoundForSelection(LatestSteps(plans), selected, budgets, a.systemNow);
      if round.None? {
        return;
      }
      fault := RoundGuard(a.now);
      if fault.Some? {
        return;
      }
      var prepared := PrepareFanoutRound(approvals, round.value, budgets, a);
      match prepared
      case PreparationFailed(f) =>
        fault := Some(f);
      case NotHandled =>
      case Prepared(ps) =>
        if |ps| > 1 {
          PersistRound(selected, ps, a);
          handled := true;
        }
    }

    // ---- planning ----

    method CreatePlanFromPlanner(a: Answers) returns (fault: Option<Fault>)
      modifies this
      ensures (Books(), fault) == SessionKernel.CreatePlanFromPlanner(old(Books()), budgets, a)
    {
      fault := RuntimeBudgetFault(session, budgets, a.now);
      if fault.Some? {
        return;
      }
      if session.runtimeStartedAt == 0 {
        session := session.(runtimeStartedAt := a.now);
      }
      var steps := PlanSteps(a);
      if steps == [] {
        return Some(NoSteps);
      }
      if a.planningRefused {
        return Some(Refused);
      }
      if budgets.maxPlanRevisions > 0 && HasPlan(plans) && Revision(plans) >= budgets.maxPlanRevisions {
        return Some(PlanRevisionBudgetExceeded);
      }
      plans := CreatePlan(plans, steps);
    }

    /** Asks the planner step by step until it has no more to say or the cap is reached. */
    method PlanSteps(a: Answers) returns (steps: seq<Step>)
      ensures steps == PlannedSteps(budgets, a)
    {
      steps := [];
      for i := 0 to if budgets.maxSteps < 0 then 0 else budgets.maxSteps
        invariant |steps| == i <= |a.planned| && steps == a.planned[..i]
      {
        if i >= |a.planned| {
          return;
        }
        steps := steps + [a.planned[i]];
      }
    }

    // ---- the loop ----

    method ResumePendingApproval(id: nat, a: Answers) returns (again: bool, fault: Option<Fault>)
      modifies this
      ensures TurnResult(again, fault) == ResolvePending(old(Books()), id, budgets, a)
      ensures again ==> fault.None?
    {
      again, fault := false, None;
      if id >= |approvals| {
        return false, Some(ApprovalNotFound);
      }
      var rec := approvals[id];
      match rec.status
      case ApprovalPending =>
      case Approved =>
        var decision := ResumeDecision(rec);
        if decision.None? {
          return false, Some(ApprovalNotResolved);
        }
        fault := RunStepWithDecision(rec.step, Some(Grant(id, decision.value)), a);
        again := fault.None? && KeepsGoing();
      case _ =>
        fault := Some(ApprovalNotResolved);
    }

    method RunSelected(step: Step, a: Answers) returns (again: bool, fault: Option<Fault>)
      modifies this
      ensures TurnResult(again, fault) == SessionKernel.RunSelected(old(Books()), step, budgets, a)
      ensures again ==> fault.None?
    {
      var handled, roundFault := TryRunFanoutRound(step, a);
      if roundFault.Some? {
        return false, roundFault;
      }
      if handled {
        return KeepsGoing(), None;
      }
      fault := RunStepWithDecision(step, None, a);
      again := fault.None? && KeepsGoing();
      if fault == Some(StepBackoffActive) {
        fault := None;
      }
    }

    method WorkOnPlan(a: Answers) returns (again: bool, fault: Option<Fault>)
      modifies this
      ensures TurnResult(again, fault) == SessionKernel.WorkOnPlan(old(Books()), budgets, a)
      ensures again ==> fault.None?
    {
      match SelectNextStep(session.currentStep, session.inFlightStep, PinnedSteps(Books()), LatestSteps(plans), budgets)
      case NeedsPlanning =>
        fault := CreatePlanFromPlanner(a);
        again := fault.None?;
      case NothingToRun =>
        again, fault := false, None;
      case RunStep(step) =>
        again, fault := RunSelected(step, a);
    }

    method RunTurn(opening: Answers, a: Answers) returns (again: bool, fault: Option<Fault>)
      modifies this
      ensures TurnResult(again, fault) == DriverTurn(old(Books()), budgets, opening, a)
      ensures again ==> fault.None?
    {
      if opening.refused {
        return false, Some(Refused);
      }
      if Terminal(session.phase) || session.execution.ExecutionBlocked? {
        return false, None;
      }
      if session.pendingApproval.Some? {
        again, fault := ResumePendingApproval(session.pendingApproval.value, a);
        return;
      }
      if !HasPlan(plans) {
        fault := CreatePlanFromPlanner(opening);
        if fault.Some? {
          return false, fault;
        }
      }
      again, fault := WorkOnPlan(a);
    }

    method TakeTurn(oracle: Oracle, turn: nat, ghost step: (World, nat) -> Turn) returns (again: bool, fault: Option<Fault>)
      requires step == DriverLoop(budgets, oracle)
      modifies this
      ensures TurnResult(again, fault) == TurnOf(step, old(Books()), turn)
      ensures again ==> fault.None?
    {
      again, fault := RunTurn(oracle(turn).0, oracle(turn).1);
    }

    method RunTurns(oracle: Oracle, ghost step: (World, nat) -> Turn, ghost good: Condition, ghost start: World)
      returns (fault: Option<Fault>, ghost turns: nat)
      requires Books() == start && Ready(start) && step == DriverLoop(budgets, oracle)
      requires Shrinks(step, good, budgets) && GoodAlong(step, good, start)
      modifies this
      ensures TurnResult(false, fault) == Iterate(step, start, turns)
    {
      var turn := 0;
      var again := true;
      fault := None;
      while again
        invariant again ==> fault.None?
        invariant TurnResult(again, fault) == Iterate(step, start, turn)
        decreases again, RevisionsLeft(Books(), budgets), Outstanding(Books(), budgets)
      {
        ghost var before := Books();
        NextIsSmaller(step, good, start, budgets, turn);
        again, fault := TakeTurn(oracle, turn, step);
        turn := turn + 1;
        assert again ==> Smaller(Books(), before, budgets);
      }
      turns := turn;
    }

    /** Runs the session until it rests or a step fails the call. The result is the one turn after turn of the
        state machine leads to, and with positive caps the tools invoked on the way are paid for beforehand. */
    method RunSession(oracle: Oracle) returns (fault: Option<Fault>)
      requires Ready(Books()) && GoodOracle(Books(), budgets, oracle) && PlanningBounded(budgets)
      modifies this
      ensures exists n: nat :: TurnResult(false, fault) == AfterTurns(old(Books()), budgets, oracle, n)
      ensures FreshPlanner(oracle) && Capped(budgets) ==>
                |log| + Credit(Books(), budgets) <= |old(log)| + Credit(old(Books()), budgets)
    {
      ghost var start, turns: nat := Books(), 0;
      DriverShrinks(budgets, oracle);
      GoodOracleIsGoodAlong(start, budgets, oracle);
      fault, turns := RunTurns(oracle, DriverLoop(budgets, oracle), GoodFor(budgets, oracle), start);
      assert TurnResult(false, fault) == AfterTurns(start, budgets, oracle, turns);
      if FreshPlanner(oracle) && Capped(budgets) {
        RunSpends(start, budgets, oracle, turns);
      }
    }

    predicate KeepsGoing()
      reads this
    {
      !Terminal(session.phase) && session.pendingApproval.None?
    }

    /** How a call's results read as a turn. */
    ghost function TurnResult(again: bool, fault: Option<Fault>): Turn
      reads this
    {
      match fault
      case Some(f) => Broken(Books(), f)
      case None => if again then Again(Books()) else Stop(Books())
    }
  }

  function Overwritten(s: Step, index: map<string, Step>): Step {
    if s.stepID in index then index[s.stepID] else s
  }

  /** Overwriting by an index of the results is replacing with the last result of each id. */
  lemma OverwrittenIsReplaced(before: seq<Step>, steps: seq<Step>, annotated: seq<Step>, index: map<string, Step>)
    requires forall id :: id in index <==> FindLast(annotated, id).Some?
    requires forall id :: id in index ==> FindLast(annotated, id) == Some(index[id])
    requires |steps| == |before| && forall j :: 0 <= j < |before| ==> steps[j] == Overwritten(before[j], index)
    ensures steps == ReplaceSteps(before, annotated)
  {
    forall j | 0 <= j < |before| ensures steps[j] == ReplaceSteps(before, annotated)[j] { }
  }

  method OverwriteSteps(before: seq<Step>, results: seq<Step>, planID: nat) returns (steps: seq<Step>, changed: bool)
    ensures steps == ReplaceSteps(before, AnnotateSteps(results, planID))
    ensures changed <==> exists j :: 0 <= j < |before| && FindLast(AnnotateSteps(results, planID), before[j].stepID).Some?
  {
    var annotated := AnnotateSteps(results, planID);
    var index := IndexByID(annotated);
    steps, changed := OverwriteIndexed(before, index);
    OverwrittenIsReplaced(before, steps, annotated, index);
  }

  method OverwriteIndexed(before: seq<Step>, index: map<string, Step>) returns (steps: seq<Step>, changed: bool)
    ensures |steps| == |before| && forall j :: 0 <= j < |before| ==> steps[j] == Overwritten(before[j], index)
    ensures changed <==> exists j :: 0 <= j < |before| && before[j].stepID in index
  {
    steps, changed := before, false;
    for i := 0 to |before|
      invariant |steps| == |before|
      invariant forall j :: i <= j < |before| ==> steps[j] == before[j]
      invariant forall j :: 0 <= j < i ==> steps[j] == Overwritten(before[j], index)
      invariant changed <==> exists j :: 0 <= j < i && before[j].stepID in index
    {
      if steps[i].stepID in index {
        steps := steps[i := index[steps[i].stepID]];
        changed := true;
      }
    }
  }
}

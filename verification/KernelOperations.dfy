/** The other calls that change a session's records: answering approvals, blocking and unblocking the runtime,
    aborting, recovering, attaching a task. Each call either faults, changing nothing, or takes effect as a whole. */
module KernelOperations {
  import opened PlanModel
  import opened Aggregates
  import opened PlanOutcome
  import opened StepSelection
  import opened SessionKernel

  /** The budgets used where a call does not look at the configured ones. */
  const DEFAULT_BUDGETS := Budgets(8, 3, 8, 300000)

  datatype Operation =
    | Drive(opening: Answers, answers: Answers)
    | ResumeApproval(answers: Answers)
    | RunStepCall(step: Step, answers: Answers)
    | CreatePlanCall(steps: seq<Step>)
    | Respond(approval: nat, reply: Reply)
    | CreateBlocked
    | RespondBlocked(record: nat, status: BlockedStatus)
    | ResumeBlocked(record: nat)
    | AbortBlocked(record: nat)
    | Abort
    | InFlightCall(stepID: string, now: int)
    | InterruptedCall(now: int)
    | Normalize
    | AttachTask

  // ---- approvals ----

  ghost function RespondApproval(w: World, id: nat, reply: Reply): Result<World, Fault> {
    if id >= |w.approvals| then Err(ApprovalNotFound)
    else if !w.approvals[id].status.ApprovalPending? || w.session.pendingApproval != Some(id) then Err(ApprovalNotPending)
    else match reply
      case NoReply => Err(InvalidReply)
      case Reject =>
        var step := w.approvals[id].step;
        Ok(w.(session := WithCurrentStep(w.session, w.approvals[id].stepID).(
                phase := PhaseFailed, pendingApproval := None, execution := Idle, inFlightStep := ""),
              approvals := w.approvals[id := w.approvals[id].(status := Rejected, reply := reply)],
              plans := WriteStep(w.plans, step.(status := Failed), DEFAULT_BUDGETS)))
      case _ =>
        Ok(w.(session := w.session.(execution := Idle),
              approvals := w.approvals[id := w.approvals[id].(status := Approved, reply := reply)]))
  }

  ghost function ResumePendingApproval(w: World, b: Budgets, a: Answers): Result<World, Fault> {
    match w.session.pendingApproval
    case None => Err(NoPendingApproval)
    case Some(id) =>
      if id >= |w.approvals| then Err(ApprovalNotFound)
      else match ResumeDecision(w.approvals[id])
        case None => Err(ApprovalNotResolved)
        case Some(decision) => RunStepWithDecision(w, w.approvals[id].step, Some(Grant(id, decision)), b, a)
  }

  // ---- blocked runtimes ----

  predicate Resolved(s: BlockedStatus) {
    s.BlockedResumed? || s.BlockedAborted?
  }

  function CreateBlockedRuntime(w: World): Result<World, Fault> {
    if Terminal(w.session.phase) then Err(SessionTerminal)
    else if w.session.pendingApproval.Some? then Err(SessionAwaitingApproval)
    else if w.session.blockedRuntime.Some? || w.session.execution.ExecutionBlocked? then Err(AlreadyBlocked)
    else Ok(w.(session := w.session.(execution := ExecutionBlocked, blockedRuntime := Some(|w.blocked|)),
               blocked := w.blocked + [BlockedPending]))
  }

  predicate CurrentlyBlockedBy(w: World, id: nat) {
    id < |w.blocked| && w.session.blockedRuntime == Some(id) && w.session.execution.ExecutionBlocked?
  }

  function RespondBlockedRuntime(w: World, id: nat, status: BlockedStatus): Result<World, Fault> {
    if !status.BlockedApproved? && !status.BlockedRejected? && !status.BlockedConfirmed? then Err(InvalidReply)
    else if !CurrentlyBlockedBy(w, id) then Err(BlockedNotActive)
    else if !w.blocked[id].BlockedPending? then Err(BlockedNotPending)
    else Ok(w.(blocked := w.blocked[id := status]))
  }

  function ResolveBlockedRuntime(w: World, id: nat, status: BlockedStatus): Result<World, Fault> {
    if !CurrentlyBlockedBy(w, id) || Resolved(w.blocked[id]) then Err(BlockedNotActive)
    else Ok(w.(session := w.session.(execution := Idle, blockedRuntime := None), blocked := w.blocked[id := status]))
  }

  // ---- abort ----

  function AbortStepID(s: Session): string {
    if s.currentStep != "" then s.currentStep else s.inFlightStep
  }

  function AbortedSession(s: Session): Session {
    WithCurrentStep(s, AbortStepID(s)).(phase := PhaseAborted, execution := Idle, inFlightStep := "",
      pendingApproval := None, blockedRuntime := None)
  }

  /** Fails the first step with this id in the plan the session works on; the plan keeps its status. */
  function FailActiveStep(plans: seq<Plan>, planRef: nat, id: string): seq<Plan> {
    if PlanIndex(plans, planRef) == |plans| || id == "" then plans
    else
      var k := PlanIndex(plans, planRef);
      match FindStep(plans[k].steps, id)
      case None => plans
      case Some(i) =>
        var failed := plans[k].steps[i].(status := Failed, reason := "session aborted");
        plans[k := plans[k].(steps := plans[k].steps[i := failed])]
  }

  function AbortedApproval(rec: Approval): Approval {
    var failed := rec.(step := rec.step.(status := Failed, reason := "session aborted"));
    match rec.status
    case ApprovalPending => failed.(status := Rejected, reply := Reject)
    case Approved => failed.(status := Consumed)
    case _ => failed
  }

  ghost function AbortSession(w: World): Result<World, Fault> {
    if w.session.phase.PhaseAborted? then Ok(w)
    else if Terminal(w.session.phase) then Err(SessionTerminal)
    else match w.session.pendingApproval
      case Some(id) =>
        if id >= |w.approvals| then Err(ApprovalNotFound)
        else
          var rec := AbortedApproval(w.approvals[id]);
          Ok(w.(session := AbortedSession(w.session), approvals := w.approvals[id := rec],
                plans := WriteStep(w.plans, rec.step, DEFAULT_BUDGETS)))
      case None =>
        match w.session.blockedRuntime
        case Some(id) =>
          if id >= |w.blocked| then Err(BlockedNotActive)
          else Ok(w.(session := AbortedSession(w.session), blocked := w.blocked[id := BlockedAborted]))
        case None =>
          Ok(w.(session := AbortedSession(w.session),
                plans := FailActiveStep(w.plans, w.session.planRef, AbortStepID(w.session))))
  }

  // ---- recovery and attachment ----

  function MarkSessionInFlight(w: World, b: Budgets, id: string, now: int): Result<World, Fault> {
    if RuntimeBudgetFault(w.session, b, now).Some? then Err(RuntimeBudgetExceeded)
    else Ok(w.(session := MarkInFlight(w.session, w.plans, id, now)))
  }

  function MarkSessionInterrupted(w: World, now: int): World {
    w.(session := w.session.(execution := Interrupted, interruptedAt := now, phase := Recover))
  }

  function NormalizeForRecovery(w: World): World {
    if !w.session.execution.InFlight? && !w.session.execution.Interrupted? then w
    else w.(session := w.session.(
              execution := Idle,
              phase := if Terminal(w.session.phase) then w.session.phase else Recover,
              currentStep := if w.session.currentStep == "" then w.session.inFlightStep else w.session.currentStep))
  }

  /** Whatever phase the session is in. */
  function AttachTaskTo(w: World): World {
    w.(session := w.session.(phase := Received))
  }

  function CreatePlanOp(w: World, b: Budgets, steps: seq<Step>): Result<World, Fault> {
    if b.maxPlanRevisions > 0 && HasPlan(w.plans) && Revision(w.plans) >= b.maxPlanRevisions
    then Err(PlanRevisionBudgetExceeded) else Ok(w.(plans := CreatePlan(w.plans, steps)))
  }

  // ---- one call after the other ----

  function Settled(w: World, r: Result<World, Fault>): World {
    if r.Ok? then r.value else w
  }

  ghost function Apply(w: World, b: Budgets, op: Operation): World {
    match op
    case Drive(opening, a) => DriverTurn(w, b, opening, a).world
    case ResumeApproval(a) => Settled(w, ResumePendingApproval(w, b, a))
    case RunStepCall(step, a) => Settled(w, RunStepWithDecision(w, step, None, b, a))
    case CreatePlanCall(steps) => Settled(w, CreatePlanOp(w, b, steps))
    case Respond(id, reply) => Settled(w, RespondApproval(w, id, reply))
    case CreateBlocked => Settled(w, CreateBlockedRuntime(w))
    case RespondBlocked(id, status) => Settled(w, RespondBlockedRuntime(w, id, status))
    case ResumeBlocked(id) => Settled(w, ResolveBlockedRuntime(w, id, BlockedResumed))
    case AbortBlocked(id) => Settled(w, ResolveBlockedRuntime(w, id, BlockedAborted))
    case Abort => Settled(w, AbortSession(w))
    case InFlightCall(id, now) => Settled(w, MarkSessionInFlight(w, b, id, now))
    case InterruptedCall(now) => MarkSessionInterrupted(w, now)
    case Normalize => NormalizeForRecovery(w)
    case AttachTask => AttachTaskTo(w)
  }
}

/** The session kernel as a state machine over one session's records. Planner, policy, tools, verifier,
    clock and every refused read are answers it is given; what it does with them is written out here. */
module SessionKernel {
  import opened PlanModel
  import opened Aggregates
  import opened PlanOutcome
  import opened StepSelection

  datatype Phase = Received | Prepare | Planning | Execute | Verify | Recover | Complete | PhaseFailed | PhaseAborted

  datatype ExecutionState = Idle | InFlight | Interrupted | AwaitingApproval | ExecutionBlocked

  /** `planRef` is the plan the session last worked on, 0 for none; step ids are "" for none. */
  datatype Session = Session(
    phase: Phase, execution: ExecutionState, currentStep: string, inFlightStep: string, planRef: nat,
    pendingApproval: Option<nat>, blockedRuntime: Option<nat>,
    runtimeStartedAt: int, interruptedAt: int, retryCount: int)

  datatype Reply = NoReply | Once | Always | Reject

  datatype ApprovalStatus = ApprovalPending | Approved | Rejected | Consumed

  datatype Approval = Approval(status: ApprovalStatus, reply: Reply, stepID: string, toolName: string, step: Step, scope: string)

  datatype BlockedStatus = BlockedPending | BlockedApproved | BlockedRejected | BlockedConfirmed | BlockedResumed | BlockedAborted

  datatype Basis = PolicyAllowed | ByApproval(id: nat)

  /** `scope` is the approval scope of the step at the time. */
  datatype Invocation = Invocation(planID: nat, stepID: string, scope: string, basis: Basis)

  /** Approvals and blocked-runtime records are named by creation order. `log` lists tool invocations. */
  datatype World = World(session: Session, plans: seq<Plan>, approvals: seq<Approval>, blocked: seq<BlockedStatus>, log: seq<Invocation>)

  datatype Decision = Allow | Deny | Ask

  /** The decision an approval record grants to the step it was asked for. */
  datatype Grant = Grant(id: nat, decision: Decision)

  /** One round of answers. Step answers are looked up by step id. */
  datatype Answers = Answers(
    refused: bool, planned: seq<Step>, planningRefused: bool, now: int, systemNow: int,
    stepRefused: string -> bool, policy: string -> Decision, scopeOf: Step -> string,
    toolFailed: string -> bool, toolOK: string -> bool, verifierOK: string -> bool, aggregateOK: string -> bool)

  datatype Fault =
    SessionTerminal | SessionBlocked | SessionAwaitingApproval | RuntimeBudgetExceeded | StepRetryBudgetExceeded
    | StepBackoffActive | Refused | PlanRevisionBudgetExceeded | NoSteps
    | ApprovalNotFound | ApprovalNotResolved | ApprovalNotPending | NoPendingApproval | InvalidReply
    | AlreadyBlocked | BlockedNotActive | BlockedNotPending

  predicate Terminal(p: Phase) {
    p.Complete? || p.PhaseFailed? || p.PhaseAborted?
  }

  // ---- phases ----

  /** The transition out of a phase when the policy does not object and nothing has been verified. */
  function NextPhase(p: Phase): Phase {
    match p
    case Received => Prepare
    case Prepare => Planning
    case Planning => Execute
    case Verify => Recover
    case Recover => Planning
    case _ => p
  }

  function StepsToExecute(p: Phase): nat {
    match p
    case Received => 3
    case Prepare => 2
    case Planning => 1
    case Verify => 3
    case Recover => 2
    case _ => 0
  }

  function AdvanceToExecute(p: Phase): Phase
    decreases StepsToExecute(p)
  {
    if p.Execute? || Terminal(p) then p else AdvanceToExecute(NextPhase(p))
  }

  lemma EveryOpenPhaseReachesExecute(p: Phase)
    ensures AdvanceToExecute(p) == if Terminal(p) then p else Execute
  {
    match p
    case Received => assert AdvanceToExecute(Prepare) == AdvanceToExecute(Planning);
    case Verify => assert AdvanceToExecute(Recover) == AdvanceToExecute(Planning);
    case _ =>
  }

  function PhaseForVerdict(v: Verdict): Phase {
    match v
    case GiveUp => PhaseFailed
    case GoOn => Planning
    case Done => Complete
  }

  // ---- plans ----

  /** Plans of other sessions come first, then the session's own in the order of their creation. */
  predicate HasPlan(plans: seq<Plan>) {
    plans != [] && plans[|plans|-1].own
  }

  function LatestSteps(plans: seq<Plan>): seq<Step> {
    if HasPlan(plans) then plans[|plans|-1].steps else []
  }

  /** The revision of the session's latest plan, 0 if it has none. */
  function Revision(plans: seq<Plan>): nat {
    if HasPlan(plans) then plans[|plans|-1].revision else 0
  }

  function AnnotateSteps(steps: seq<Step>, planID: nat): (r: seq<Step>)
    ensures |r| == |steps|
    ensures forall i :: 0 <= i < |steps| ==> r[i] == AnnotateStep(steps[i], planID)
  {
    seq(|steps|, i requires 0 <= i < |steps| => AnnotateStep(steps[i], planID))
  }

  function NormalizeStatus(step: Step): Step {
    if step.status.Unset? then step.(status := Pending) else step
  }

  /** A new plan of the session takes the next id and the next revision; the identity every read would add is added here. */
  function CreatePlan(plans: seq<Plan>, steps: seq<Step>): (r: seq<Plan>)
    ensures |r| == |plans| + 1 && r[..|plans|] == plans
    ensures r[|plans|].own && r[|plans|].planID == |plans| + 1 && r[|plans|].revision == Revision(plans) + 1
    ensures r[|plans|].status.Active? && |r[|plans|].steps| == |steps|
    ensures forall i :: 0 <= i < |steps| ==>
              !r[|plans|].steps[i].status.Unset? && r[|plans|].steps[i].planID != 0
              && r[|plans|].steps[i].stepID == steps[i].stepID && r[|plans|].steps[i].attempt == steps[i].attempt
  {
    var normalized := seq(|steps|, i requires 0 <= i < |steps| => NormalizeStatus(steps[i]));
    plans + [Plan(|plans| + 1, true, Revision(plans) + 1, Active, AnnotateSteps(normalized, |plans| + 1))]
  }

  /** Where the plan with this id is kept, whichever session it is of. An id that names no stored plan leads to the
      session's latest one; without any, there is no place. */
  function PlanIndex(plans: seq<Plan>, planID: nat): (k: nat)
    ensures k <= |plans| && (HasPlan(plans) || 0 < planID <= |plans| ==> k < |plans|)
  {
    if 0 < planID <= |plans| then planID - 1 else if HasPlan(plans) then |plans| - 1 else |plans|
  }

  ghost function WithSteps(p: Plan, steps: seq<Step>, b: Budgets): Plan {
    p.(steps := steps, status := PlanStatusFor(VerdictOf(steps, b)))
  }

  /** Stores one step: its plan gets the step and a recomputed status. */
  ghost function WriteStep(plans: seq<Plan>, step: Step, b: Budgets): (r: seq<Plan>)
    ensures |r| == |plans|
  {
    var k := PlanIndex(plans, step.planID);
    if k == |plans| then plans
    else
      var s := AnnotateStep(step, plans[k].planID);
      if FindStep(plans[k].steps, s.stepID).None? then plans
      else plans[k := WithSteps(plans[k], ReplaceStep(plans[k].steps, s), b)]
  }

  // ---- verification ----

  /** Whether a step counts as verified after its tool ran. Aggregate-scoped steps need their own success, and
      the aggregate verifier once all members the latest plan knows are in. */
  ghost predicate VerifiedAs(latest: Option<seq<Step>>, step: Step, b: Budgets, a: Answers) {
    var success := !a.toolFailed(step.stepID) && a.toolOK(step.stepID);
    if !step.metadata.verifyAggregate then a.verifierOK(step.stepID)
    else
      && success
      && (step.metadata.aggregateVerify && Tagged(step) && latest.Some?
          && VerificationReady(ReplaceStep(latest.value, step.(status := Completed)), step.metadata.aggregateID, b)
          && (exists m :: m in ReplaceStep(latest.value, step.(status := Completed)) && MemberOf(m, step.metadata.aggregateID))
          ==> a.aggregateOK(step.stepID))
  }

  /** The phase a step leads to before the plan has been consulted. */
  function PhaseAfterStep(ran: Step, verified: bool, b: Budgets): Phase {
    if verified then Complete
    else match NormalizedOnFailStrategy(ran)
      case Abort => PhaseFailed
      case Replan => Planning
      case Reinspect => if ran.attempt < AllowedAttempts(ran, b) then Prepare else PhaseFailed
      case Continue => if ran.attempt < AllowedAttempts(ran, b) then Recover else Planning
      case Retry => if ran.attempt < AllowedAttempts(ran, b) then Recover else PhaseFailed
  }

  /** When a step was verified, or has spent its `continue` strategy, the latest plan decides instead. */
  predicate Reconciles(ran: Step, verified: bool, b: Budgets) {
    verified || (NormalizedOnFailStrategy(ran).Continue? && ran.attempt >= AllowedAttempts(ran, b))
  }

  ghost function PhaseAfter(latest: Option<seq<Step>>, ran: Step, verified: bool, b: Budgets): Phase {
    if Reconciles(ran, verified, b) && latest.Some? then PhaseForVerdict(VerdictOf(ReplaceStep(latest.value, ran), b))
    else PhaseAfterStep(ran, verified, b)
  }

  function WithBackoff(step: Step, next: Phase, now: int): Step {
    step.(metadata := step.metadata.(retryNotBefore :=
      if (next.Recover? || next.Prepare?) && step.onFail.backoffMS > 0 then Some(now + step.onFail.backoffMS) else None))
  }

  // ---- guards ----

  function RuntimeBudgetFault(s: Session, b: Budgets, now: int): Option<Fault> {
    if b.maxTotalRuntimeMS > 0 && s.runtimeStartedAt != 0 && now - s.runtimeStartedAt > b.maxTotalRuntimeMS
    then Some(RuntimeBudgetExceeded) else None
  }

  function StepGuard(s: Session, b: Budgets, step: Step, forced: Option<Grant>, a: Answers): Option<Fault> {
    if Terminal(s.phase) then Some(SessionTerminal)
    else if s.execution.ExecutionBlocked? then Some(SessionBlocked)
    else if s.pendingApproval.Some? && (forced.None? || s.pendingApproval.value != forced.value.id) then Some(SessionAwaitingApproval)
    else if RuntimeBudgetFault(s, b, a.now).Some? then Some(RuntimeBudgetExceeded)
    else if Exhausted(step, b) then Some(StepRetryBudgetExceeded)
    else if BackoffActive(step, a.now) then Some(StepBackoffActive)
    else if a.stepRefused(step.stepID) then Some(Refused)
    else None
  }

  /** The first standing grant (approved with "always") whose scope is this one. */
  function FindReusable(approvals: seq<Approval>, scope: string): (r: Option<nat>)
    ensures r.Some? ==> r.value < |approvals| && approvals[r.value].status.Approved? && approvals[r.value].reply.Always?
                        && approvals[r.value].scope == scope
    ensures r.None? ==> forall i :: 0 <= i < |approvals| ==>
                          !(approvals[i].status.Approved? && approvals[i].reply.Always? && approvals[i].scope == scope)
  {
    if approvals == [] then None
    else if approvals[0].status.Approved? && approvals[0].reply.Always? && approvals[0].scope == scope then Some(0)
    else match FindReusable(approvals[1..], scope)
      case Some(k) => Some(k + 1)
      case None => None
  }

  /** The decision a step runs under, and the approval behind it. */
  function DecisionFor(approvals: seq<Approval>, step: Step, forced: Option<Grant>, a: Answers): (Decision, Basis) {
    if forced.Some? then (forced.value.decision, ByApproval(forced.value.id))
    else match a.policy(step.stepID)
      case Allow => (Allow, PolicyAllowed)
      case Deny => (Deny, PolicyAllowed)
      case Ask =>
        match FindReusable(approvals, a.scopeOf(step))
        case Some(id) => (Allow, ByApproval(id))
        case None => (Ask, PolicyAllowed)
  }

  // ---- running one step ----

  function WithPlanRef(s: Session, step: Step): Session {
    if step.planID == 0 then s else s.(planRef := step.planID)
  }

  function WithCurrentStep(s: Session, id: string): Session {
    if id == "" then s else s.(currentStep := id)
  }

  /** The plan the step with this id names; a step that names none is read with its own plan's identity. */
  function IdentityIn(p: Plan, id: string): Option<nat> {
    match FindStep(p.steps, id)
    case None => None
    case Some(i) => Some(AnnotateStep(p.steps[i], p.planID).planID)
  }

  /** The plan reference recorded when work starts: the identity of the step in the pinned plan if that knows the
      id, else in the latest. */
  function StepRef(s: Session, plans: seq<Plan>, id: string): Option<nat> {
    if id == "" then None
    else if (s.inFlightStep != "" || s.currentStep != "") && 0 < s.planRef <= |plans|
            && IdentityIn(plans[s.planRef-1], id).Some? then IdentityIn(plans[s.planRef-1], id)
    else if HasPlan(plans) then IdentityIn(plans[|plans|-1], id)
    else None
  }

  function MarkInFlight(s: Session, plans: seq<Plan>, id: string, now: int): Session {
    var ref := StepRef(s, plans, id);
    s.(runtimeStartedAt := if s.runtimeStartedAt == 0 then now else s.runtimeStartedAt,
       execution := InFlight, inFlightStep := id,
       planRef := if ref.Some? then ref.value else s.planRef)
  }

  function Latest(plans: seq<Plan>): Option<seq<Step>> {
    if HasPlan(plans) then Some(LatestSteps(plans)) else None
  }

  /** The policy asks: the step is parked and a fresh approval awaits an answer. */
  ghost function AskFor(w: World, step: Step, b: Budgets, a: Answers): World {
    var parked := step.(status := Blocked);
    w.(session := WithPlanRef(w.session, step).(
         phase := AdvanceToExecute(w.session.phase), execution := AwaitingApproval,
         pendingApproval := Some(|w.approvals|), currentStep := step.stepID),
       plans := WriteStep(w.plans, parked, b),
       approvals := w.approvals + [Approval(ApprovalPending, NoReply, step.stepID, step.toolName, parked, a.scopeOf(step))])
  }

  ghost function DenyStep(w: World, step: Step, b: Budgets): World {
    w.(session := WithCurrentStep(WithPlanRef(w.session, step), step.stepID).(
         phase := PhaseFailed, execution := Idle, inFlightStep := ""),
       plans := WriteStep(w.plans, step.(attempt := step.attempt + 1, status := Failed), b))
  }

  function SettleApproval(approvals: seq<Approval>, basis: Basis): (r: seq<Approval>)
    ensures |r| == |approvals|
  {
    if basis.ByApproval? && basis.id < |approvals| && approvals[basis.id].reply.Once?
    then approvals[basis.id := approvals[basis.id].(status := Consumed)]
    else approvals
  }

  /** The step as it stands after its tool ran. */
  ghost function Ran(w: World, step: Step, b: Budgets, a: Answers): Step {
    var started := step.(attempt := step.attempt + 1);
    started.(status := if VerifiedAs(Latest(w.plans), started, b, a) then Completed else Failed)
  }

  ghost function ExecuteStep(w: World, step: Step, basis: Basis, b: Budgets, a: Answers): World {
    var ran := Ran(w, step, b, a);
    var verified := ran.status.Completed?;
    var next := PhaseAfter(Latest(w.plans), ran, verified, b);
    var marked := MarkInFlight(w.session, w.plans, step.stepID, a.now);
    World(WithCurrentStep(marked, step.stepID).(
            phase := next, execution := Idle, inFlightStep := "",
            retryCount := marked.retryCount + if verified then 0 else 1,
            pendingApproval := if basis.ByApproval? && marked.pendingApproval == Some(basis.id) then None else marked.pendingApproval),
          WriteStep(w.plans, WithBackoff(ran, next, a.now), b),
          SettleApproval(w.approvals, basis),
          w.blocked,
          w.log + [Invocation(step.planID, step.stepID, a.scopeOf(step), basis)])
  }

  ghost function RunStepWithDecision(w: World, given: Step, forced: Option<Grant>, b: Budgets, a: Answers): Result<World, Fault> {
    var step := AnnotateStep(given, w.session.planRef);
    match StepGuard(w.session, b, step, forced, a)
    case Some(fault) => Err(fault)
    case None =>
      match DecisionFor(w.approvals, step, forced, a)
      case (Ask, _) => Ok(AskFor(w, step, b, a))
      case (Deny, _) => Ok(DenyStep(w, step, b))
      case (Allow, basis) => Ok(ExecuteStep(w, step, basis, b, a))
  }

  // ---- fan-out rounds ----

  predicate FanoutRunnable(s: Step, b: Budgets, systemNow: int) {
    Waiting(s) || (s.status.Failed? && !Exhausted(s, b) && !BackoffActive(s, systemNow))
  }

  predicate InRound(s: Step, selected: Step, b: Budgets, systemNow: int) {
    && Tagged(s) && s.metadata.aggregateID == selected.metadata.aggregateID
    && s.metadata.aggregateScope == TARGET_FANOUT && FanoutRunnable(s, b, systemNow)
  }

  function RoundSteps(steps: seq<Step>, selected: Step, b: Budgets, systemNow: int): seq<Step> {
    if steps == [] then []
    else (if InRound(steps[0], selected, b, systemNow) then [steps[0]] else []) + RoundSteps(steps[1..], selected, b, systemNow)
  }

  lemma {:induction false} RoundStepsAre(steps: seq<Step>, selected: Step, b: Budgets, systemNow: int)
    ensures forall s :: s in RoundSteps(steps, selected, b, systemNow) <==> s in steps && InRound(s, selected, b, systemNow)
  {
    if steps != [] {
      RoundStepsAre(steps[1..], selected, b, systemNow);
      assert forall s :: s in steps <==> s == steps[0] || s in steps[1..];
    }
  }

  function FanoutRound(latest: seq<Step>, selected: Step, b: Budgets, systemNow: int): Option<seq<Step>> {
    if Tagged(selected) && selected.metadata.aggregateScope == TARGET_FANOUT
       && selected.metadata.maxConcurrency.Some? && selected.metadata.maxConcurrency.value > 1
    then
      var steps := RoundSteps(latest, selected, b, systemNow);
      if |steps| <= 1 then None else Some(steps)
    else None
  }

  datatype PreparedStep = PreparedStep(step: Step, decision: Decision, basis: Basis, scope: string)

  datatype Preparation = Prepared(steps: seq<PreparedStep>) | NotHandled | PreparationFailed(fault: Fault)

  /** A step that lets the round be prepared: within its attempts, and unless it is left out for backoff, readable
      and with a decision that is no question. */
  predicate Preparable(approvals: seq<Approval>, s: Step, b: Budgets, a: Answers) {
    && !Exhausted(s, b)
    && (BackoffActive(s, a.now) || (!a.stepRefused(s.stepID) && !DecisionFor(approvals, s, None, a).0.Ask?))
  }

  /** Steps in backoff are left out; a step the policy asks about without a standing grant calls the round off. */
  function PrepareRound(approvals: seq<Approval>, steps: seq<Step>, b: Budgets, a: Answers): Preparation {
    if steps == [] then Prepared([])
    else
      var s := steps[0];
      if Exhausted(s, b) then PreparationFailed(StepRetryBudgetExceeded)
      else if BackoffActive(s, a.now) then
        PrepareRound(approvals, steps[1..], b, a)
      else if a.stepRefused(s.stepID) then PreparationFailed(Refused)
      else
        var (decision, basis) := DecisionFor(approvals, s, None, a);
        if decision.Ask? then NotHandled
        else match PrepareRound(approvals, steps[1..], b, a)
          case Prepared(rest) => Prepared([PreparedStep(s, decision, basis, a.scopeOf(s))] + rest)
          case other => other
  }

  /** When a round is prepared, called off or faulted, and what is prepared. */
  lemma {:induction false} PreparedWhen(approvals: seq<Approval>, steps: seq<Step>, b: Budgets, a: Answers)
    ensures var r := PrepareRound(approvals, steps, b, a);
            && (r.Prepared? <==> forall s :: s in steps ==> Preparable(approvals, s, b, a))
            && (r.NotHandled? ==> exists s :: s in steps && DecisionFor(approvals, s, None, a).0.Ask?)
            && (r.PreparationFailed? ==> exists s :: s in steps && (Exhausted(s, b) || a.stepRefused(s.stepID)))
            && (r.Prepared? ==>
                  forall p :: p in r.steps ==>
                                p.step in steps && !Exhausted(p.step, b) && !p.decision.Ask?
                                && (p.decision, p.basis) == DecisionFor(approvals, p.step, None, a) && p.scope == a.scopeOf(p.step))
  {
    if steps != [] {
      PreparedWhen(approvals, steps[1..], b, a);
      assert steps[0] in steps && forall s :: s in steps <==> s == steps[0] || s in steps[1..];
    }
  }

  /** A prepared step after its goroutine and its own verification, before aggregate verification. */
  function RoundOutcome(p: PreparedStep, b: Budgets, a: Answers): Step {
    var id := p.step.stepID;
    var started := p.step.(attempt := p.step.attempt + 1);
    if p.decision.Deny? then started.(status := Failed)
    else
      var verified := if p.step.metadata.verifyAggregate then !a.toolFailed(id) && a.toolOK(id) else a.verifierOK(id);
      var ran := started.(status := if verified then Completed else Failed);
      WithBackoff(ran, PhaseAfterStep(ran, verified, b), a.now)
  }

  function RoundOutcomes(ps: seq<PreparedStep>, b: Budgets, a: Answers): (r: seq<Step>)
    ensures |r| == |ps|
    ensures forall i :: 0 <= i < |ps| ==> r[i] == RoundOutcome(ps[i], b, a)
  {
    seq(|ps|, i requires 0 <= i < |ps| => RoundOutcome(ps[i], b, a))
  }

  /** The last step of the round that ran and is verified with its aggregate. */
  function LastAggregateIndex(ps: seq<PreparedStep>): (r: Option<nat>)
    ensures r.Some? ==> r.value < |ps| && !ps[r.value].decision.Deny? && ps[r.value].step.metadata.verifyAggregate
  {
    if ps == [] then None
    else
      var last := ps[|ps|-1];
      if !last.decision.Deny? && last.step.metadata.verifyAggregate then Some(|ps| - 1) else LastAggregateIndex(ps[..|ps|-1])
  }

  /** The last of `steps` with this id. */
  function FindLast(steps: seq<Step>, id: string): (r: Option<Step>)
    ensures r.Some? ==> r.value in steps && r.value.stepID == id
    ensures r.None? <==> forall s :: s in steps ==> s.stepID != id
  {
    if steps == [] then None
    else if steps[|steps|-1].stepID == id then Some(steps[|steps|-1])
    else
      assert forall s :: s in steps <==> s in steps[..|steps|-1] || s == steps[|steps|-1];
      FindLast(steps[..|steps|-1], id)
  }

  /** All replacements at once: every step whose id occurs takes the last replacement with that id. */
  function ReplaceSteps(steps: seq<Step>, replacements: seq<Step>): (r: seq<Step>)
    ensures |r| == |steps|
    ensures forall i :: 0 <= i < |steps| ==> r[i].stepID == steps[i].stepID
    ensures forall i :: 0 <= i < |steps| ==>
              r[i] == (match FindLast(replacements, steps[i].stepID) case Some(s) => s case None => steps[i])
  {
    seq(|steps|, i requires 0 <= i < |steps| =>
      match FindLast(replacements, steps[i].stepID) case Some(s) => s case None => steps[i])
  }

  ghost function SettleAggregate(latest: seq<Step>, ps: seq<PreparedStep>, outcomes: seq<Step>, b: Budgets, a: Answers): (r: seq<Step>)
    requires |outcomes| == |ps|
    ensures |r| == |outcomes|
    ensures forall i :: 0 <= i < |r| ==> r[i].stepID == outcomes[i].stepID && r[i].attempt == outcomes[i].attempt
                                         && r[i].planID == outcomes[i].planID && r[i].onFail == outcomes[i].onFail
  {
    match LastAggregateIndex(ps)
    case None => outcomes
    case Some(k) =>
      var s := outcomes[k];
      if s.metadata.aggregateVerify && Tagged(s)
         && VerificationReady(ReplaceSteps(latest, outcomes), s.metadata.aggregateID, b)
         && (exists m :: m in ReplaceSteps(latest, outcomes) && MemberOf(m, s.metadata.aggregateID))
      then
        var verified := a.aggregateOK(s.stepID) && a.toolOK(s.stepID);
        var ran := s.(status := if verified then Completed else Failed);
        outcomes[k := WithBackoff(ran, PhaseAfterStep(ran, verified, b), a.now)]
      else outcomes
  }

  /** Stores a whole round in the plan of its first step. */
  ghost function WriteSteps(plans: seq<Plan>, steps: seq<Step>, b: Budgets): (r: seq<Plan>)
    ensures |r| == |plans|
  {
    if steps == [] || PlanIndex(plans, steps[0].planID) == |plans| then plans
    else
      var k := PlanIndex(plans, steps[0].planID);
      var annotated := AnnotateSteps(steps, plans[k].planID);
      if forall i :: 0 <= i < |plans[k].steps| ==> FindLast(annotated, plans[k].steps[i].stepID).None? then plans
      else plans[k := WithSteps(plans[k], ReplaceSteps(plans[k].steps, annotated), b)]
  }

  function RoundInvocations(ps: seq<PreparedStep>): (r: seq<Invocation>)
    ensures |r| <= |ps|
  {
    if ps == [] then []
    else RoundInvocations(ps[..|ps|-1])
         + if ps[|ps|-1].decision.Deny? then []
           else [Invocation(ps[|ps|-1].step.planID, ps[|ps|-1].step.stepID, ps[|ps|-1].scope, ps[|ps|-1].basis)]
  }

  ghost function RoundResults(latest: seq<Step>, ps: seq<PreparedStep>, b: Budgets, a: Answers): (r: seq<Step>)
    ensures |r| == |ps|
  {
    SettleAggregate(latest, ps, RoundOutcomes(ps, b, a), b, a)
  }

  /** Failures a round adds to the retry count. The step settled with its aggregate is looked at twice. */
  function RetryFailures(ps: seq<PreparedStep>, first: seq<Step>, settled: seq<Step>): nat
    requires |ps| == |first| == |settled|
  {
    CountRanAndFailed(ps, first)
    + match LastAggregateIndex(ps)
      case Some(k) => if settled[k].status.Completed? then 0 else 1
      case None => 0
  }

  function CountRanAndFailed(ps: seq<PreparedStep>, outcomes: seq<Step>): nat
    requires |ps| == |outcomes|
  {
    if ps == [] then 0
    else
      var n := |ps| - 1;
      CountRanAndFailed(ps[..n], outcomes[..n]) + if !ps[n].decision.Deny? && outcomes[n].status.Failed? then 1 else 0
  }

  function RoundSession(s: Session, plans: seq<Plan>, anchorID: string, lastID: string, failures: nat, verdict: Verdict, now: int): Session {
    WithCurrentStep(WithCurrentStep(s, anchorID), lastID).(
      runtimeStartedAt := MarkInFlight(s, plans, anchorID, now).runtimeStartedAt,
      retryCount := s.retryCount + failures,
      phase := PhaseForVerdict(verdict), execution := Idle, inFlightStep := "")
  }

  ghost function ExecuteRound(w: World, anchor: Step, ps: seq<PreparedStep>, b: Budgets, a: Answers): World
    requires |ps| > 1
  {
    var results := RoundResults(LatestSteps(w.plans), ps, b, a);
    var verdict := VerdictOf(ReplaceSteps(LatestSteps(w.plans), results), b);
    World(RoundSession(w.session, w.plans, anchor.stepID, results[|results|-1].stepID,
                       RetryFailures(ps, RoundOutcomes(ps, b, a), results), verdict, a.now),
          WriteSteps(w.plans, results, b),
          w.approvals, w.blocked,
          w.log + RoundInvocations(ps))
  }

  datatype RoundAttempt = RoundDone(world: World) | RoundDeclined | RoundFailed(fault: Fault)

  ghost function TryFanoutRound(w: World, selected: Step, b: Budgets, a: Answers): RoundAttempt {
    match FanoutRound(LatestSteps(w.plans), selected, b, a.systemNow)
    case None => RoundDeclined
    case Some(steps) =>
      if Terminal(w.session.phase) then RoundFailed(SessionTerminal)
      else if w.session.execution.ExecutionBlocked? then RoundFailed(SessionBlocked)
      else if w.session.pendingApproval.Some? then RoundFailed(SessionAwaitingApproval)
      else if RuntimeBudgetFault(w.session, b, a.now).Some? then RoundFailed(RuntimeBudgetExceeded)
      else match PrepareRound(w.approvals, steps, b, a)
        case PreparationFailed(fault) => RoundFailed(fault)
        case NotHandled => RoundDeclined
        case Prepared(ps) => if |ps| <= 1 then RoundDeclined else RoundDone(ExecuteRound(w, selected, ps, b, a))
  }

  /** A round that takes place is the execution of what was prepared. */
  lemma RoundDoneIs(w: World, selected: Step, b: Budgets, a: Answers) returns (ps: seq<PreparedStep>)
    requires TryFanoutRound(w, selected, b, a).RoundDone?
    ensures FanoutRound(LatestSteps(w.plans), selected, b, a.systemNow).Some? && |ps| > 1
    ensures w.session.pendingApproval.None? && !w.session.execution.ExecutionBlocked?
    ensures PrepareRound(w.approvals, RoundSteps(LatestSteps(w.plans), selected, b, a.systemNow), b, a) == Prepared(ps)
    ensures TryFanoutRound(w, selected, b, a) == RoundDone(ExecuteRound(w, selected, ps, b, a))
  {
    ps := PrepareRound(w.approvals, RoundSteps(LatestSteps(w.plans), selected, b, a.systemNow), b, a).steps;
  }

  // ---- planning ----

  function PlannedSteps(b: Budgets, a: Answers): (r: seq<Step>)
    ensures r <= a.planned && (b.maxSteps >= 0 ==> |r| <= b.maxSteps)
    ensures b.maxSteps <= 0 ==> r == []
  {
    if b.maxSteps <= 0 then [] else if |a.planned| <= b.maxSteps then a.planned else a.planned[..b.maxSteps]
  }

  /** What planning leaves behind, with the fault if it failed: the runtime anchor is set before the planner is asked. */
  function CreatePlanFromPlanner(w: World, b: Budgets, a: Answers): (World, Option<Fault>) {
    if RuntimeBudgetFault(w.session, b, a.now).Some? then (w, Some(RuntimeBudgetExceeded))
    else
      var anchored := if w.session.runtimeStartedAt == 0 then w.(session := w.session.(runtimeStartedAt := a.now)) else w;
      var steps := PlannedSteps(b, a);
      if steps == [] then (anchored, Some(NoSteps))
      else if a.planningRefused then (anchored, Some(Refused))
      else if b.maxPlanRevisions > 0 && HasPlan(w.plans) && Revision(w.plans) >= b.maxPlanRevisions then
        (anchored, Some(PlanRevisionBudgetExceeded))
      else (anchored.(plans := CreatePlan(w.plans, steps)), None)
  }

  // ---- one turn of the driver loop ----

  datatype Turn = Stop(world: World) | Broken(world: World, fault: Fault) | Again(world: World)

  function AfterWork(w: World): Turn {
    if Terminal(w.session.phase) || w.session.pendingApproval.Some? then Stop(w) else Again(w)
  }

  /** The default resume policy on an approved record and its own step. */
  function ResumeDecision(rec: Approval): Option<Decision> {
    if !rec.status.Approved? || rec.stepID != rec.step.stepID || rec.toolName != rec.step.toolName then None
    else match rec.reply
      case Once => Some(Allow)
      case Always => Some(Allow)
      case Reject => Some(Deny)
      case NoReply => None
  }

  ghost function ResolvePending(w: World, id: nat, b: Budgets, a: Answers): Turn {
    if id >= |w.approvals| then Broken(w, ApprovalNotFound)
    else match w.approvals[id].status
      case ApprovalPending => Stop(w)
      case Approved =>
        (match ResumeDecision(w.approvals[id])
         case Some(decision) =>
           (match RunStepWithDecision(w, w.approvals[id].step, Some(Grant(id, decision)), b, a)
            case Ok(next) => AfterWork(next)
            case Err(fault) => Broken(w, fault))
         case None => Broken(w, ApprovalNotResolved))
      case _ => Broken(w, ApprovalNotResolved)
  }

  function PinnedSteps(w: World): seq<Step> {
    if (w.session.inFlightStep != "" || w.session.currentStep != "") && 0 < w.session.planRef <= |w.plans|
    then w.plans[w.session.planRef-1].steps else LatestSteps(w.plans)
  }

  ghost function RunSelected(w: World, step: Step, b: Budgets, a: Answers): Turn {
    match TryFanoutRound(w, step, b, a)
    case RoundFailed(fault) => Broken(w, fault)
    case RoundDone(next) => AfterWork(next)
    case RoundDeclined =>
      match RunStepWithDecision(w, step, None, b, a)
      case Ok(next) => AfterWork(next)
      case Err(StepBackoffActive) => Stop(w)
      case Err(fault) => Broken(w, fault)
  }

  ghost function WorkOnPlan(w: World, b: Budgets, a: Answers): Turn {
    match SelectNextStep(w.session.currentStep, w.session.inFlightStep, PinnedSteps(w), LatestSteps(w.plans), b)
    case NeedsPlanning =>
      (match CreatePlanFromPlanner(w, b, a)
       case (next, None) => Again(next)
       case (next, Some(fault)) => Broken(next, fault))
    case NothingToRun => Stop(w)
    case RunStep(step) => RunSelected(w, step, b, a)
  }

  /** One turn. `opening` answers the planning of a session that has no plan yet, `a` everything after it. */
  ghost function DriverTurn(w: World, b: Budgets, opening: Answers, a: Answers): Turn {
    if opening.refused then Broken(w, Refused)
    else if Terminal(w.session.phase) || w.session.execution.ExecutionBlocked? then Stop(w)
    else if w.session.pendingApproval.Some? then ResolvePending(w, w.session.pendingApproval.value, b, a)
    else if !HasPlan(w.plans) then
      match CreatePlanFromPlanner(w, b, opening)
      case (next, Some(fault)) => Broken(next, fault)
      case (next, None) => WorkOnPlan(next, b, a)
    else WorkOnPlan(w, b, a)
  }
}

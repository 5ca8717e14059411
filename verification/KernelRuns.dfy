/** Runs of the kernel: any sequence of calls on one session, each taking effect as a whole. */
module KernelRuns {
  import opened PlanModel
  import opened StepSelection
  import opened SessionKernel
  import opened KernelOperations
  import opened KernelInvariants
  import opened DriverBudget
  import opened DriverRun

  // ---- one call ----

  lemma RespondKeeps(w: World, id: nat, reply: Reply)
    requires Inv(w)
    ensures var r := RespondApproval(w, id, reply); r.Ok? ==> Inv(r.value) && Moves(w, r.value) && r.value.log == w.log
  {
    var r := RespondApproval(w, id, reply);
    if r.Ok? {
      assert RecordOK(w.approvals[id]) && UsedAsGranted(w.approvals[id], Uses(w.log, id));
      assert r.value.log == w.log && r.value.blocked == w.blocked;
    }
  }

  lemma AbortKeeps(w: World)
    requires Inv(w)
    ensures var r := AbortSession(w); r.Ok? ==> Inv(r.value) && Moves(w, r.value) && r.value.log == w.log
  {
    var r := AbortSession(w);
    if r.Ok? && !w.session.phase.PhaseAborted? && w.session.pendingApproval.Some? {
      var id := w.session.pendingApproval.value;
      assert RecordOK(w.approvals[id]) && UsedAsGranted(w.approvals[id], Uses(w.log, id));
    }
  }

  lemma BlockedCallsKeep(w: World, id: nat, status: BlockedStatus)
    requires Inv(w)
    ensures var r := CreateBlockedRuntime(w); r.Ok? ==> Inv(r.value) && Moves(w, r.value)
    ensures var r := RespondBlockedRuntime(w, id, status); r.Ok? ==> Inv(r.value) && Moves(w, r.value)
    ensures var r := ResolveBlockedRuntime(w, id, status); r.Ok? ==> Inv(r.value) && Moves(w, r.value)
  {
  }

  lemma ResumeCallKeeps(w: World, b: Budgets, a: Answers)
    requires Inv(w)
    ensures var r := ResumePendingApproval(w, b, a); r.Ok? ==> Inv(r.value) && Moves(w, r.value) && Appends(w, r.value, a)
  {
    if w.session.pendingApproval.Some? {
      var id := w.session.pendingApproval.value;
      assert RecordOK(w.approvals[id]);
      if w.approvals[id].status.Approved? {
        RunStepKeeps(w, w.approvals[id].step, Some(Grant(id, Allow)), b, a);
      }
    }
  }

  predicate Runs(op: Operation) {
    op.Drive? || op.ResumeApproval? || op.RunStepCall?
  }

  lemma RunningCallKeeps(w: World, b: Budgets, op: Operation)
    requires Inv(w) && Runs(op)
    ensures var v := Apply(w, b, op); Inv(v) && Moves(w, v) && Appends(w, v, op.answers)
  {
    match op
    case Drive(opening, a) => TurnKeeps(w, b, opening, a);
    case ResumeApproval(a) => ResumeCallKeeps(w, b, a);
    case RunStepCall(step, a) => RunStepKeeps(w, step, None, b, a);
  }

  /** Calls that touch no record of an approval or a blocked runtime. */
  predicate Marks(op: Operation) {
    op.CreatePlanCall? || op.InFlightCall? || op.InterruptedCall? || op.Normalize? || op.AttachTask?
  }

  predicate SameRecords(w: World, v: World) {
    && v.approvals == w.approvals && v.blocked == w.blocked && v.log == w.log
    && v.session.pendingApproval == w.session.pendingApproval && v.session.blockedRuntime == w.session.blockedRuntime
    && (v.session.execution.ExecutionBlocked? ==> w.session.execution.ExecutionBlocked?)
    && (Terminal(v.session.phase) ==> Terminal(w.session.phase))
  }

  lemma MarkLeavesRecords(w: World, b: Budgets, op: Operation)
    requires Marks(op)
    ensures SameRecords(w, Apply(w, b, op))
  {
  }

  lemma MarkKeeps(w: World, b: Budgets, op: Operation)
    requires Inv(w) && Marks(op)
    ensures var v := Apply(w, b, op); Inv(v) && Moves(w, v) && v.log == w.log
  {
    MarkLeavesRecords(w, b, op);
    RecordsStay(w, Apply(w, b, op));
  }

  lemma RecordsStay(w: World, v: World)
    requires Inv(w) && SameRecords(w, v)
    ensures Inv(v) && Moves(w, v)
  {
  }

  lemma RecordCallKeeps(w: World, b: Budgets, op: Operation)
    requires Inv(w) && !Runs(op)
    ensures var v := Apply(w, b, op); Inv(v) && Moves(w, v) && v.log == w.log
  {
    match op
    case Respond(id, reply) => RespondKeeps(w, id, reply);
    case CreateBlocked => BlockedCallsKeep(w, 0, BlockedPending);
    case RespondBlocked(id, status) => BlockedCallsKeep(w, id, status);
    case ResumeBlocked(id) => BlockedCallsKeep(w, id, BlockedResumed);
    case AbortBlocked(id) => BlockedCallsKeep(w, id, BlockedAborted);
    case Abort => AbortKeeps(w);
    case _ => MarkKeeps(w, b, op);
  }

  /** Every call keeps the invariant, moves approvals and blocked records forwards only, and invokes tools only
      as granted; a call that runs no step invokes none. */
  lemma CallKeeps(w: World, b: Budgets, op: Operation)
    requires Inv(w)
    ensures var v := Apply(w, b, op);
            && Inv(v) && Moves(w, v)
            && (if Runs(op) then Appends(w, v, op.answers) else v.log == w.log)
  {
    if Runs(op) {
      RunningCallKeeps(w, b, op);
    } else {
      RecordCallKeeps(w, b, op);
    }
  }

  // ---- runs ----

  type Call = (World, Operation) -> World

  ghost function Kernel(b: Budgets): Call {
    (w: World, op: Operation) => Apply(w, b, op)
  }

  ghost function CallOf(call: Call, w: World, op: Operation): World {
    call(w, op)
  }

  ghost function After(call: Call, w: World, ops: seq<Operation>): World {
    if ops == [] then w else CallOf(call, After(call, w, ops[..|ops|-1]), ops[|ops|-1])
  }

  ghost function RunOf(w: World, b: Budgets, ops: seq<Operation>): World {
    After(Kernel(b), w, ops)
  }

  /** A session as it is created, whatever plans others have: nothing asked, nothing blocked, nothing run. */
  ghost predicate Fresh(w: World) {
    && w.approvals == [] && w.blocked == [] && w.log == [] && !HasPlan(w.plans)
    && w.session.pendingApproval.None? && w.session.blockedRuntime.None? && w.session.execution.Idle?
  }

  ghost predicate Sound(call: Call) {
    forall w, op :: Inv(w) ==> Inv(CallOf(call, w, op)) && Moves(w, CallOf(call, w, op))
  }

  lemma KernelIsSound(b: Budgets)
    ensures Sound(Kernel(b))
  {
    forall w, op | Inv(w) ensures Inv(CallOf(Kernel(b), w, op)) && Moves(w, CallOf(Kernel(b), w, op)) {
      CallKeeps(w, b, op);
    }
  }

  lemma {:induction false} AfterKeeps(call: Call, w: World, ops: seq<Operation>)
    requires Sound(call) && Inv(w)
    ensures Inv(After(call, w, ops))
  {
    if ops != [] {
      AfterKeeps(call, w, ops[..|ops|-1]);
    }
  }

  /** Every state a fresh session can reach satisfies the invariant. */
  lemma ReachableInv(w: World, b: Budgets, ops: seq<Operation>)
    requires Fresh(w)
    ensures Inv(RunOf(w, b, ops))
  {
    KernelIsSound(b);
    AfterKeeps(Kernel(b), w, ops);
  }

  /** An approval answered "once" backs at most one tool invocation, whatever is called in whatever order;
      one that was never approved backs none. */
  lemma OnceMeansOnce(w: World, b: Budgets, ops: seq<Operation>, id: nat)
    requires Fresh(w)
    ensures var v := RunOf(w, b, ops);
            id < |v.approvals| ==>
              && (v.approvals[id].reply.Once? ==> Uses(v.log, id) <= 1)
              && (v.approvals[id].status.ApprovalPending? || v.approvals[id].status.Rejected? ==> Uses(v.log, id) == 0)
  {
    ReachableInv(w, b, ops);
    assert LogOK(RunOf(w, b, ops));
  }

  /** In every reachable state: if the policy asks about a step, its tool runs on an approved record only, which is for
      this very step and awaited, or stands for the step's own approval scope. */
  lemma AskedMeansApproved(w: World, b: Budgets, ops: seq<Operation>, op: Operation, j: nat)
    requires Fresh(w) && Runs(op)
    requires var v := RunOf(w, b, ops);
             && |v.log| <= j < |Apply(v, b, op).log| && op.answers.policy(Apply(v, b, op).log[j].stepID).Ask?
    ensures var v := RunOf(w, b, ops);
            var inv := Apply(v, b, op).log[j];
            && inv.basis.ByApproval? && inv.basis.id < |v.approvals|
            && var rec := v.approvals[inv.basis.id];
               && rec.status.Approved?
               && ((rec.stepID == inv.stepID && v.session.pendingApproval == Some(inv.basis.id))
                   || (rec.reply.Always? && rec.scope == inv.scope))
  {
    var v := RunOf(w, b, ops);
    ReachableInv(w, b, ops);
    CallKeeps(v, b, op);
    assert Granted(v, Apply(v, b, op).log[j], op.answers);
  }

  /** The record an invocation ran on was answered, for this very step or for good and for steps of its scope. */
  predicate RanOn(approvals: seq<Approval>, inv: Invocation) {
    inv.basis.ByApproval? ==>
      && inv.basis.id < |approvals|
      && var rec := approvals[inv.basis.id];
         !rec.status.ApprovalPending? && (rec.stepID == inv.stepID || (rec.reply.Always? && rec.scope == inv.scope))
  }

  ghost predicate AllRanOn(w: World) {
    forall j :: 0 <= j < |w.log| ==> RanOn(w.approvals, w.log[j])
  }

  lemma MovedRanOn(w: World, v: World, inv: Invocation)
    requires ApprovalsMove(w, v) && RanOn(w.approvals, inv)
    ensures RanOn(v.approvals, inv)
  {
    if inv.basis.ByApproval? {
      assert SameSubject(w.approvals[inv.basis.id], v.approvals[inv.basis.id]);
    }
  }

  lemma CallRanOn(w: World, b: Budgets, op: Operation)
    requires Inv(w) && AllRanOn(w)
    ensures AllRanOn(Apply(w, b, op))
  {
    var v := Apply(w, b, op);
    CallKeeps(w, b, op);
    forall j | 0 <= j < |v.log| ensures RanOn(v.approvals, v.log[j]) {
      if j >= |w.log| {
        assert Granted(w, v.log[j], op.answers);
      } else {
        assert v.log[j] == w.log[j];
      }
      MovedRanOn(w, v, v.log[j]);
    }
  }

  ghost predicate KeepsRanOn(call: Call) {
    forall w, op :: Inv(w) && AllRanOn(w) ==> AllRanOn(CallOf(call, w, op))
  }

  lemma {:induction false} AfterRanOn(call: Call, w: World, ops: seq<Operation>)
    requires Sound(call) && KeepsRanOn(call) && Inv(w) && AllRanOn(w)
    ensures AllRanOn(After(call, w, ops))
  {
    if ops != [] {
      AfterKeeps(call, w, ops[..|ops|-1]);
      AfterRanOn(call, w, ops[..|ops|-1]);
    }
  }

  /** Over whole runs, no tool has ever run on an approval given for another step, unless that stands for good for steps
      of its own approval scope. */
  lemma ApprovalsFit(w: World, b: Budgets, ops: seq<Operation>)
    requires Fresh(w)
    ensures AllRanOn(RunOf(w, b, ops))
  {
    KernelIsSound(b);
    forall v, op | Inv(v) && AllRanOn(v) ensures AllRanOn(CallOf(Kernel(b), v, op)) {
      CallRanOn(v, b, op);
    }
    AfterRanOn(Kernel(b), w, ops);
  }

  /** Where a status can be led by any number of calls. */
  predicate StatusLeads(before: ApprovalStatus, after: ApprovalStatus) {
    before == after || before.ApprovalPending? || (before.Approved? && after.Consumed?)
  }

  lemma {:induction false} AfterMoves(call: Call, w: World, ops: seq<Operation>)
    requires Sound(call) && Inv(w)
    ensures var v := After(call, w, ops);
            && |w.approvals| <= |v.approvals|
            && (forall i :: 0 <= i < |w.approvals| ==> StatusLeads(w.approvals[i].status, v.approvals[i].status))
            && BlockedMoves(w, v)
  {
    if ops != [] {
      var front := ops[..|ops|-1];
      AfterKeeps(call, w, front);
      AfterMoves(call, w, front);
      assert Moves(After(call, w, front), After(call, w, ops));
    }
  }

  /** From any reachable state on: approvals go from pending to rejected, or to approved and then consumed, and
      blocked records that were resumed or aborted never change again. */
  lemma RecordsMoveForwards(w: World, b: Budgets, ops: seq<Operation>, later: seq<Operation>)
    requires Fresh(w)
    ensures var v := RunOf(w, b, ops);
            var u := RunOf(v, b, later);
            && |v.approvals| <= |u.approvals|
            && (forall i :: 0 <= i < |v.approvals| ==> StatusLeads(v.approvals[i].status, u.approvals[i].status))
            && BlockedMoves(v, u)
  {
    KernelIsSound(b);
    ReachableInv(w, b, ops);
    AfterMoves(Kernel(b), RunOf(w, b, ops), later);
  }

  /** A session that waits for an approval is never wedged: the record is pending, or it is approved and resumes. */
  lemma NeverWedged(w: World, b: Budgets, ops: seq<Operation>, a: Answers)
    requires Fresh(w)
    ensures var v := RunOf(w, b, ops);
            v.session.pendingApproval.Some? ==>
              var id := v.session.pendingApproval.value;
              && id < |v.approvals|
              && (v.approvals[id].status.ApprovalPending? || v.approvals[id].status.Approved?)
              && (var t := ResolvePending(v, id, b, a); t.Broken? ==> t.fault != ApprovalNotFound && t.fault != ApprovalNotResolved)
  {
    var v := RunOf(w, b, ops);
    ReachableInv(w, b, ops);
    if v.session.pendingApproval.Some? {
      NeverWedgedOnApproval(v, v.session.pendingApproval.value, b, a);
    }
  }

  // ---- the driver may always be called ----

  /** What callers owe: whatever may become a plan has distinct step ids and names no plan that is stored by then. */
  ghost predicate GoodCall(w: World, b: Budgets, op: Operation) {
    match op
    case Drive(opening, a) => GoodTurn(w, b, opening, a)
    case CreatePlanCall(steps) => CreatePlanOp(w, b, steps).Ok? ==> GoodPlan(steps, |w.plans|)
    case _ => true
  }

  lemma SoundIsReady(w: World)
    requires Inv(w) && WellStored(w.plans)
    ensures Ready(w)
  {
    if w.session.pendingApproval.Some? {
      assert RecordOK(w.approvals[w.session.pendingApproval.value]);
    }
  }

  lemma StepKeepsStored(w: World, given: Step, forced: Option<Grant>, b: Budgets, a: Answers)
    requires WellStored(w.plans)
    ensures var r := RunStepWithDecision(w, given, forced, b, a); r.Ok? ==> WellStored(r.value.plans)
  {
    if RunStepWithDecision(w, given, forced, b, a).Ok? {
      var s := StepWrites(w, given, forced, b, a);
      WriteKeepsStored(w.plans, 0, s, b);
    }
  }

  lemma ExecuteRoundKeepsStored(w: World, anchor: Step, ps: seq<PreparedStep>, b: Budgets, a: Answers)
    requires WellStored(w.plans) && HasPlan(w.plans) && |ps| > 1
    requires DistinctPrepared(ps) && forall p :: p in ps ==> p.step in LatestSteps(w.plans) && !Exhausted(p.step, b)
    ensures WellStored(ExecuteRound(w, anchor, ps, b, a).plans)
  {
    assert WellStoredPlan(w.plans[|w.plans|-1], |w.plans|);
    RoundSpends(LatestSteps(w.plans), ps, b, a);
    RoundLeaves(w, anchor, ps, b, a);
    var p := RoundPlan(w.plans, RoundResults(LatestSteps(w.plans), ps, b, a), b);
  }

  lemma RoundKeepsStored(w: World, selected: Step, b: Budgets, a: Answers)
    requires WellStored(w.plans) && HasPlan(w.plans)
    ensures var r := TryFanoutRound(w, selected, b, a); r.RoundDone? ==> WellStored(r.world.plans)
  {
    if TryFanoutRound(w, selected, b, a).RoundDone? {
      assert WellStoredPlan(w.plans[|w.plans|-1], |w.plans|);
      var ps := RoundDoneIs(w, selected, b, a);
      RoundPrepared(w.approvals, LatestSteps(w.plans), selected, b, a);
      ExecuteRoundKeepsStored(w, selected, ps, b, a);
    }
  }

  lemma PlanningKeepsStored(w: World, b: Budgets, a: Answers)
    requires WellStored(w.plans) && GoodAnswer(|w.plans|, Revision(w.plans), b, a)
    ensures WellStored(CreatePlanFromPlanner(w, b, a).0.plans)
  {
    if CreatePlanFromPlanner(w, b, a).1.None? {
      CreatePlanEffect(w.plans, PlannedSteps(b, a), 0, b);
    }
  }

  lemma SelectedKeepsStored(w: World, step: Step, b: Budgets, a: Answers)
    requires WellStored(w.plans) && HasPlan(w.plans)
    ensures WellStored(RunSelected(w, step, b, a).world.plans)
  {
    RoundKeepsStored(w, step, b, a);
    StepKeepsStored(w, step, None, b, a);
  }

  lemma WorkKeepsStored(w: World, b: Budgets, a: Answers)
    requires WellStored(w.plans) && HasPlan(w.plans) && GoodAnswer(|w.plans|, Revision(w.plans), b, a)
    ensures WellStored(WorkOnPlan(w, b, a).world.plans)
  {
    match SelectNextStep(w.session.currentStep, w.session.inFlightStep, PinnedSteps(w), LatestSteps(w.plans), b)
    case NeedsPlanning => PlanningKeepsStored(w, b, a);
    case NothingToRun =>
    case RunStep(step) => SelectedKeepsStored(w, step, b, a);
  }

  lemma OpeningKeepsStored(w: World, b: Budgets, opening: Answers, a: Answers)
    requires WellStored(w.plans) && !HasPlan(w.plans)
    requires GoodAnswer(|w.plans|, 0, b, opening) && GoodAnswer(|w.plans| + 1, 1, b, a)
    ensures var (mid, fault) := CreatePlanFromPlanner(w, b, opening);
            WellStored(mid.plans) && (fault.None? ==> WellStored(WorkOnPlan(mid, b, a).world.plans))
  {
    PlanningKeepsStored(w, b, opening);
    var (mid, fault) := CreatePlanFromPlanner(w, b, opening);
    if fault.None? {
      WorkKeepsStored(mid, b, a);
    }
  }

  lemma ResumeKeepsStored(w: World, id: nat, b: Budgets, a: Answers)
    requires WellStored(w.plans) && id < |w.approvals|
    ensures WellStored(ResolvePending(w, id, b, a).world.plans)
    ensures w.session.pendingApproval == Some(id) ==> WellStored(Settled(w, ResumePendingApproval(w, b, a)).plans)
  {
    if ResumeDecision(w.approvals[id]).Some? {
      StepKeepsStored(w, w.approvals[id].step, Some(Grant(id, ResumeDecision(w.approvals[id]).value)), b, a);
    }
  }

  lemma TurnKeepsStored(w: World, b: Budgets, opening: Answers, a: Answers)
    requires WellStored(w.plans) && GoodTurn(w, b, opening, a)
    ensures WellStored(DriverTurn(w, b, opening, a).world.plans)
  {
    if w.session.pendingApproval.Some? {
      if w.session.pendingApproval.value < |w.approvals| {
        ResumeKeepsStored(w, w.session.pendingApproval.value, b, a);
      }
    } else if HasPlan(w.plans) {
      WorkKeepsStored(w, b, a);
    } else {
      OpeningKeepsStored(w, b, opening, a);
    }
  }

  lemma FailActiveKeepsStored(plans: seq<Plan>, planRef: nat, id: string)
    requires WellStored(plans)
    ensures WellStored(FailActiveStep(plans, planRef, id))
  {
    var after := FailActiveStep(plans, planRef, id);
    forall k | 0 <= k < |plans| ensures |after| == |plans| && WellStoredPlan(after[k], k + 1) {
      assert WellStoredPlan(plans[k], k + 1);
    }
  }

  lemma AnswersKeepStored(w: World, id: nat, reply: Reply)
    requires WellStored(w.plans)
    ensures WellStored(Settled(w, RespondApproval(w, id, reply)).plans)
    ensures WellStored(Settled(w, AbortSession(w)).plans)
  {
    if id < |w.approvals| {
      WriteKeepsStored(w.plans, 0, w.approvals[id].step.(status := Failed), DEFAULT_BUDGETS);
    }
    if w.session.pendingApproval.Some? && w.session.pendingApproval.value < |w.approvals| {
      WriteKeepsStored(w.plans, 0, AbortedApproval(w.approvals[w.session.pendingApproval.value]).step, DEFAULT_BUDGETS);
    }
    FailActiveKeepsStored(w.plans, w.session.planRef, AbortStepID(w.session));
  }

  /** Every call leaves plans behind, its own and those of others, from which the driver can go on. */
  lemma CallStaysReady(w: World, b: Budgets, op: Operation)
    requires WellStored(w.plans) && Inv(w) && GoodCall(w, b, op)
    ensures WellStored(Apply(w, b, op).plans) && Ready(Apply(w, b, op))
  {
    match op {
      case Drive(opening, a) => TurnKeepsStored(w, b, opening, a);
      case ResumeApproval(a) =>
        if w.session.pendingApproval.Some? {
          ResumeKeepsStored(w, w.session.pendingApproval.value, b, a);
        }
      case RunStepCall(step, a) => StepKeepsStored(w, step, None, b, a);
      case CreatePlanCall(steps) =>
        if CreatePlanOp(w, b, steps).Ok? {
          CreatePlanEffect(w.plans, steps, 0, b);
        }
      case Respond(id, reply) => AnswersKeepStored(w, id, reply);
      case Abort => AnswersKeepStored(w, 0, NoReply);
      case _ =>
    }
    CallKeeps(w, b, op);
    SoundIsReady(Apply(w, b, op));
  }

  ghost predicate GoodRun(call: Call, w: World, b: Budgets, ops: seq<Operation>) {
    ops == [] || (GoodRun(call, w, b, ops[..|ops|-1]) && GoodCall(After(call, w, ops[..|ops|-1]), b, ops[|ops|-1]))
  }

  ghost predicate StaysSoundAndStored(call: Call, b: Budgets) {
    forall w, op :: Inv(w) && WellStored(w.plans) && GoodCall(w, b, op) ==>
      Inv(CallOf(call, w, op)) && WellStored(CallOf(call, w, op).plans)
  }

  lemma {:induction false} AfterStaysStored(call: Call, w: World, b: Budgets, ops: seq<Operation>)
    requires StaysSoundAndStored(call, b) && Inv(w) && WellStored(w.plans) && GoodRun(call, w, b, ops)
    ensures Inv(After(call, w, ops)) && WellStored(After(call, w, ops).plans)
  {
    if ops != [] {
      AfterStaysStored(call, w, b, ops[..|ops|-1]);
    }
  }

  /** In a store whose plans are well stored, of whichever session: every state reached with plans that name none
      stored before them is one the driver can be started from, and from there it ends, on all answers of the same
      kind. Nothing is asked of the steps that are run by name, so results may go to the plans of others. */
  lemma DriverEndsEverywhere(w: World, b: Budgets, ops: seq<Operation>, oracle: Oracle) returns (n: nat)
    requires Fresh(w) && WellStored(w.plans) && PlanningBounded(b)
    requires GoodRun(Kernel(b), w, b, ops) && GoodOracle(RunOf(w, b, ops), b, oracle)
    ensures Ready(RunOf(w, b, ops)) && !AfterTurns(RunOf(w, b, ops), b, oracle, n).Again?
  {
    forall v, op | Inv(v) && WellStored(v.plans) && GoodCall(v, b, op)
      ensures Inv(CallOf(Kernel(b), v, op)) && WellStored(CallOf(Kernel(b), v, op).plans)
    {
      CallKeeps(v, b, op);
      CallStaysReady(v, b, op);
    }
    AfterStaysStored(Kernel(b), w, b, ops);
    SoundIsReady(RunOf(w, b, ops));
    n := DriverEnds(RunOf(w, b, ops), b, oracle);
  }
}

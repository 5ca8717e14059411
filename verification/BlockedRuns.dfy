/** Sessions blocked by their runtime, over whole runs: what a blocked session may count on, and exactly when the
    record it names can still be answered. */
module BlockedRuns {
  import opened PlanModel
  import opened StepSelection
  import opened SessionKernel
  import opened KernelOperations
  import opened KernelInvariants
  import opened KernelRuns
  import SessionStore

  /** A blocked session is open, waits for nothing else, can be claimed by nobody, whatever its lease, and names
      the one record that blocks it. */
  lemma BlockedMeans(w: World, b: Budgets, ops: seq<Operation>)
    requires Fresh(w)
    ensures var v := RunOf(w, b, ops);
            v.session.execution.ExecutionBlocked? ==>
              && !Terminal(v.session.phase) && v.session.pendingApproval.None?
              && (forall st: SessionStore.State, recoverable, now ::
                    st.execution == v.session.execution ==> !SessionStore.Claimable(st, recoverable, now))
              && v.session.blockedRuntime.Some? && v.session.blockedRuntime.value < |v.blocked|
              && !Resolved(v.blocked[v.session.blockedRuntime.value])
              && forall id: nat :: CurrentlyBlockedBy(v, id) <==> v.session.blockedRuntime == Some(id)
  {
    ReachableInv(w, b, ops);
  }

  // ---- one call ----

  /** A blocked session is marked in flight or interrupted: neither call looks at whether it is blocked. */
  predicate Stranding(w: World, b: Budgets, op: Operation) {
    && w.session.execution.ExecutionBlocked?
    && (op.InterruptedCall? || (op.InFlightCall? && MarkSessionInFlight(w, b, op.stepID, op.now).Ok?))
  }

  /** The session names the record after a call: the call created it, or the session named it before and is
      blocked by it as before, unless the call strands it. */
  ghost predicate Names(w: World, b: Budgets, op: Operation, v: World) {
    v.session.blockedRuntime.Some? ==>
      if w.session.blockedRuntime == v.session.blockedRuntime
      then v.session.execution.ExecutionBlocked? <==> w.session.execution.ExecutionBlocked? && !Stranding(w, b, op)
      else v.session.execution.ExecutionBlocked? && v.session.blockedRuntime.value == |w.blocked|
  }

  /** A record that is named without blocking stays so, unless the session is aborted. */
  ghost predicate StaysStranded(w: World, op: Operation, v: World) {
    w.session.blockedRuntime.Some? && !w.session.execution.ExecutionBlocked? && !op.Abort? ==>
      v.session.blockedRuntime == w.session.blockedRuntime && !v.session.execution.ExecutionBlocked?
  }

  ghost predicate SameBlock(w: World, v: World) {
    && v.session.blockedRuntime == w.session.blockedRuntime
    && (v.session.execution.ExecutionBlocked? <==> w.session.execution.ExecutionBlocked?)
  }

  lemma StepSameBlock(w: World, given: Step, forced: Option<Grant>, b: Budgets, a: Answers)
    ensures var r := RunStepWithDecision(w, given, forced, b, a); r.Ok? ==> SameBlock(w, r.value)
  {
  }

  lemma RoundSameBlock(w: World, selected: Step, b: Budgets, a: Answers)
    ensures var r := TryFanoutRound(w, selected, b, a); r.RoundDone? ==> SameBlock(w, r.world)
  {
    if TryFanoutRound(w, selected, b, a).RoundDone? {
      var ps := RoundDoneIs(w, selected, b, a);
      RunRoundSameBlock(w, selected, ps, b, a);
    }
  }

  lemma RunRoundSameBlock(w: World, anchor: Step, ps: seq<PreparedStep>, b: Budgets, a: Answers)
    requires |ps| > 1 && !w.session.execution.ExecutionBlocked?
    ensures SameBlock(w, ExecuteRound(w, anchor, ps, b, a))
  {
  }

  lemma SelectedSameBlock(w: World, step: Step, b: Budgets, a: Answers)
    ensures SameBlock(w, RunSelected(w, step, b, a).world)
  {
    RoundSameBlock(w, step, b, a);
    StepSameBlock(w, step, None, b, a);
  }

  lemma WorkSameBlock(w: World, b: Budgets, a: Answers)
    ensures SameBlock(w, WorkOnPlan(w, b, a).world)
  {
    match SelectNextStep(w.session.currentStep, w.session.inFlightStep, PinnedSteps(w), LatestSteps(w.plans), b)
    case NeedsPlanning => PlanningLeaves(w, b, a);
    case NothingToRun =>
    case RunStep(step) => SelectedSameBlock(w, step, b, a);
  }

  lemma ResumeSameBlock(w: World, b: Budgets, a: Answers)
    requires w.session.pendingApproval.Some?
    ensures SameBlock(w, ResolvePending(w, w.session.pendingApproval.value, b, a).world)
    ensures SameBlock(w, Settled(w, ResumePendingApproval(w, b, a)))
  {
    var p := w.session.pendingApproval.value;
    if p < |w.approvals| && ResumeDecision(w.approvals[p]).Some? {
      StepSameBlock(w, w.approvals[p].step, Some(Grant(p, ResumeDecision(w.approvals[p]).value)), b, a);
    }
  }

  lemma OpeningSameBlock(w: World, b: Budgets, opening: Answers, a: Answers)
    ensures SameBlock(w, WorkOnPlan(CreatePlanFromPlanner(w, b, opening).0, b, a).world)
  {
    PlanningLeaves(w, b, opening);
    WorkSameBlock(CreatePlanFromPlanner(w, b, opening).0, b, a);
  }

  lemma TurnSameBlock(w: World, b: Budgets, opening: Answers, a: Answers)
    ensures SameBlock(w, DriverTurn(w, b, opening, a).world)
  {
    if w.session.pendingApproval.Some? {
      ResumeSameBlock(w, b, a);
    } else if !HasPlan(w.plans) {
      PlanningLeaves(w, b, opening);
      OpeningSameBlock(w, b, opening, a);
    } else {
      WorkSameBlock(w, b, a);
    }
  }

  lemma CallNames(w: World, b: Budgets, op: Operation)
    requires Inv(w)
    ensures Names(w, b, op, Apply(w, b, op)) && StaysStranded(w, op, Apply(w, b, op))
  {
    match op
    case Drive(opening, a) => TurnSameBlock(w, b, opening, a);
    case ResumeApproval(a) =>
      if w.session.pendingApproval.Some? {
        ResumeSameBlock(w, b, a);
      }
    case RunStepCall(step, a) => StepSameBlock(w, step, None, b, a);
    case _ =>
  }

  // ---- whole runs ----

  ghost predicate NamesThroughout(call: Call, b: Budgets) {
    forall w, op :: Inv(w) ==> Names(w, b, op, CallOf(call, w, op)) && StaysStranded(w, op, CallOf(call, w, op))
  }

  lemma KernelNames(b: Budgets)
    ensures NamesThroughout(Kernel(b), b)
  {
    forall w, op | Inv(w) ensures Names(w, b, op, CallOf(Kernel(b), w, op)) && StaysStranded(w, op, CallOf(Kernel(b), w, op)) {
      CallNames(w, b, op);
    }
  }

  /** Call `i` of the run stranded this record. */
  ghost predicate StrandedAt(call: Call, w: World, b: Budgets, ops: seq<Operation>, i: nat, id: nat)
    requires i < |ops|
  {
    After(call, w, ops[..i]).session.blockedRuntime == Some(id) && Stranding(After(call, w, ops[..i]), b, ops[i])
  }

  ghost predicate EverStranded(call: Call, w: World, b: Budgets, ops: seq<Operation>, id: nat) {
    exists i: nat :: i < |ops| && StrandedAt(call, w, b, ops, i, id)
  }

  lemma StrandedSplits(call: Call, w: World, b: Budgets, ops: seq<Operation>, id: nat)
    requires ops != []
    ensures var n := |ops| - 1;
            EverStranded(call, w, b, ops, id) <==> EverStranded(call, w, b, ops[..n], id) || StrandedAt(call, w, b, ops, n, id)
  {
    var n := |ops| - 1;
    forall i: nat | i < n ensures StrandedAt(call, w, b, ops, i, id) <==> StrandedAt(call, w, b, ops[..n], i, id) {
      assert ops[..n][..i] == ops[..i];
    }
  }

  /** A record that does not exist yet was never stranded. */
  lemma {:induction false} NeverStrandedBefore(call: Call, w: World, b: Budgets, ops: seq<Operation>, id: nat)
    requires Sound(call) && Inv(w) && id >= |After(call, w, ops).blocked|
    ensures !EverStranded(call, w, b, ops, id)
  {
    if ops != [] {
      var front := ops[..|ops|-1];
      AfterKeeps(call, w, front);
      assert Moves(After(call, w, front), After(call, w, ops));
      NeverStrandedBefore(call, w, b, front, id);
      StrandedSplits(call, w, b, ops, id);
    }
  }

  /** The session is blocked by the record it names exactly when no call has stranded it. */
  lemma {:induction false} BlockedUnlessStranded(call: Call, w: World, b: Budgets, ops: seq<Operation>, id: nat)
    requires Sound(call) && NamesThroughout(call, b) && Inv(w) && w.session.blockedRuntime.None?
    requires After(call, w, ops).session.blockedRuntime == Some(id)
    ensures After(call, w, ops).session.execution.ExecutionBlocked? <==> !EverStranded(call, w, b, ops, id)
  {
    if ops != [] {
      var front, op := ops[..|ops|-1], ops[|ops|-1];
      AfterKeeps(call, w, front);
      StrandedSplits(call, w, b, ops, id);
      assert Names(After(call, w, front), b, op, CallOf(call, After(call, w, front), op));
      if After(call, w, front).session.blockedRuntime == Some(id) {
        BlockedUnlessStranded(call, w, b, front, id);
      } else {
        NeverStrandedBefore(call, w, b, front, id);
      }
    }
  }

  predicate IsAnswer(status: BlockedStatus) {
    status.BlockedApproved? || status.BlockedRejected? || status.BlockedConfirmed?
  }

  /** Over every run from a new session: the record a session names can be resumed and aborted, and answered if it
      has not been, exactly when no call marked the session in flight or interrupted while it was blocked by it. */
  lemma AnswerableExactlyWhen(w: World, b: Budgets, ops: seq<Operation>, id: nat, status: BlockedStatus)
    requires Fresh(w) && RunOf(w, b, ops).session.blockedRuntime == Some(id)
    ensures var v := RunOf(w, b, ops);
            var stranded := EverStranded(Kernel(b), w, b, ops, id);
            && id < |v.blocked|
            && (ResolveBlockedRuntime(v, id, BlockedResumed).Ok? <==> !stranded)
            && (ResolveBlockedRuntime(v, id, BlockedAborted).Ok? <==> !stranded)
            && (RespondBlockedRuntime(v, id, status).Ok? <==> !stranded && v.blocked[id].BlockedPending? && IsAnswer(status))
  {
    KernelIsSound(b);
    KernelNames(b);
    ReachableInv(w, b, ops);
    BlockedUnlessStranded(Kernel(b), w, b, ops, id);
  }

  ghost predicate Stranded(w: World, id: nat) {
    w.session.blockedRuntime == Some(id) && !w.session.execution.ExecutionBlocked?
  }

  lemma {:induction false} AfterStaysStranded(call: Call, w: World, b: Budgets, ops: seq<Operation>, id: nat)
    requires Sound(call) && NamesThroughout(call, b) && Inv(w) && Stranded(w, id)
    requires forall i :: 0 <= i < |ops| ==> !ops[i].Abort?
    ensures Stranded(After(call, w, ops), id)
  {
    if ops != [] {
      AfterKeeps(call, w, ops[..|ops|-1]);
      AfterStaysStranded(call, w, b, ops[..|ops|-1], id);
    }
  }

  /** A stranded record is left behind for good: until the session is aborted no call answers, resumes or aborts
      it, and no new one can be created. */
  lemma StrandedUntilAborted(w: World, b: Budgets, op: Operation, ops: seq<Operation>, any: nat, status: BlockedStatus)
    requires Inv(w) && Stranding(w, b, op) && forall i :: 0 <= i < |ops| ==> !ops[i].Abort?
    ensures var v := RunOf(Apply(w, b, op), b, ops);
            && v.session.blockedRuntime == w.session.blockedRuntime
            && CreateBlockedRuntime(v).Err? && RespondBlockedRuntime(v, any, status).Err? && ResolveBlockedRuntime(v, any, status).Err?
  {
    KernelIsSound(b);
    KernelNames(b);
    CallKeeps(w, b, op);
    AfterStaysStranded(Kernel(b), Apply(w, b, op), b, ops, w.session.blockedRuntime.value);
  }
}

/** What every call keeps, over whole runs: approvals are answered once and used as granted, a blocked session
    names the record that blocks it. */
module KernelInvariants {
  import opened PlanModel
  import opened StepSelection
  import opened SessionKernel
  import opened KernelOperations

  // ---- invocations per approval ----

  /** How many tool invocations an approval has backed. */
  function Uses(log: seq<Invocation>, id: nat): nat {
    if log == [] then 0
    else Uses(log[..|log|-1], id) + if log[|log|-1].basis == ByApproval(id) then 1 else 0
  }

  lemma {:induction false} UsesAppend(log: seq<Invocation>, more: seq<Invocation>, id: nat)
    ensures Uses(log + more, id) == Uses(log, id) + Uses(more, id)
  {
    if more == [] {
      assert log + [] == log;
    } else {
      UsesAppend(log, more[..|more|-1], id);
      assert (log + more)[..|log + more|-1] == log + more[..|more|-1];
    }
  }

  lemma {:induction false} UnusedMeans(log: seq<Invocation>, id: nat)
    ensures Uses(log, id) == 0 <==> forall inv :: inv in log ==> inv.basis != ByApproval(id)
  {
    if log != [] {
      UnusedMeans(log[..|log|-1], id);
      assert forall inv :: inv in log <==> inv in log[..|log|-1] || inv == log[|log|-1];
    }
  }

  // ---- the invariant ----

  predicate RecordOK(rec: Approval) {
    && rec.stepID == rec.step.stepID && rec.toolName == rec.step.toolName
    && match rec.status
       case ApprovalPending => rec.reply.NoReply?
       case Approved => rec.reply.Once? || rec.reply.Always?
       case Rejected => rec.reply.Reject?
       case Consumed => rec.reply.Once? || rec.reply.Always?
  }

  /** The records are coherent, and the one the session waits for can still be answered or resumed. */
  ghost predicate ApprovalsOK(w: World) {
    && (forall i :: 0 <= i < |w.approvals| ==> RecordOK(w.approvals[i]))
    && (w.session.pendingApproval.Some? ==>
          && w.session.pendingApproval.value < |w.approvals|
          && (w.approvals[w.session.pendingApproval.value].status.ApprovalPending?
              || w.approvals[w.session.pendingApproval.value].status.Approved?))
  }

  /** What an approval may have backed, given what has become of it. */
  ghost predicate UsedAsGranted(rec: Approval, uses: nat) {
    && (rec.status.ApprovalPending? || rec.status.Rejected? ==> uses == 0)
    && (rec.reply.Once? ==> uses <= 1 && (rec.status.Approved? ==> uses == 0))
  }

  ghost predicate LogOK(w: World) {
    forall id: nat :: if id < |w.approvals| then UsedAsGranted(w.approvals[id], Uses(w.log, id)) else Uses(w.log, id) == 0
  }

  /** A blocked session is open, waits for no approval, and names a record of its own that is still unresolved. */
  ghost predicate BlockedOK(w: World) {
    && (w.session.blockedRuntime.Some? ==>
          w.session.blockedRuntime.value < |w.blocked| && !Resolved(w.blocked[w.session.blockedRuntime.value]))
    && (w.session.execution.ExecutionBlocked? ==>
          w.session.blockedRuntime.Some? && w.session.pendingApproval.None? && !Terminal(w.session.phase))
  }

  ghost predicate Inv(w: World) {
    ApprovalsOK(w) && LogOK(w) && BlockedOK(w)
  }

  // ---- what one call may do to the records ----

  predicate StatusMoves(before: ApprovalStatus, after: ApprovalStatus) {
    || before == after
    || (before.ApprovalPending? && (after.Rejected? || after.Approved?))
    || (before.Approved? && after.Consumed?)
  }

  /** What an approval is for never changes, nor the answer once it is given. */
  predicate SameSubject(before: Approval, after: Approval) {
    && before.stepID == after.stepID && before.toolName == after.toolName && before.scope == after.scope
    && (!before.status.ApprovalPending? ==> after.reply == before.reply)
  }

  /** An invocation the policy allowed, or one that an approved record backs: the very one the session was
      waiting for, or a standing grant for the scope of the step. */
  ghost predicate Granted(w: World, inv: Invocation, a: Answers) {
    match inv.basis
    case PolicyAllowed => a.policy(inv.stepID).Allow?
    case ByApproval(id) =>
      && id < |w.approvals| && w.approvals[id].status.Approved?
      && ((w.session.pendingApproval == Some(id) && w.approvals[id].stepID == inv.stepID)
          || (w.approvals[id].reply.Always? && w.approvals[id].scope == inv.scope && a.policy(inv.stepID).Ask?))
  }

  ghost predicate Appends(w: World, v: World, a: Answers) {
    w.log <= v.log && forall j :: |w.log| <= j < |v.log| ==> Granted(w, v.log[j], a)
  }

  ghost predicate ApprovalsMove(w: World, v: World) {
    |w.approvals| <= |v.approvals|
    && forall i :: 0 <= i < |w.approvals| ==>
         StatusMoves(w.approvals[i].status, v.approvals[i].status) && SameSubject(w.approvals[i], v.approvals[i])
  }

  ghost predicate BlockedMoves(w: World, v: World) {
    |w.blocked| <= |v.blocked|
    && forall i :: 0 <= i < |w.blocked| && Resolved(w.blocked[i]) ==> v.blocked[i] == w.blocked[i]
  }

  ghost predicate Moves(w: World, v: World) {
    ApprovalsMove(w, v) && BlockedMoves(w, v)
  }

  // ---- running a step ----

  ghost predicate Forced(w: World, given: Step, forced: Option<Grant>) {
    match forced
    case None => true
    case Some(g) =>
      && w.session.pendingApproval == Some(g.id) && g.id < |w.approvals| && w.approvals[g.id].status.Approved?
      && g.decision.Allow? && w.approvals[g.id].stepID == given.stepID
  }

  /** A world that differs from an ask only in its plans: a fresh pending record, nothing invoked. */
  lemma AskKeeps(w: World, step: Step, b: Budgets, a: Answers)
    requires Inv(w) && w.session.pendingApproval.None?
    ensures var v := AskFor(w, step, b, a); Inv(v) && Moves(w, v) && Appends(w, v, a)
  {
    var v := AskFor(w, step, b, a);
    assert v.log == w.log && v.blocked == w.blocked;
    assert v.approvals[|w.approvals|].status.ApprovalPending?;
  }

  lemma DenyKeeps(w: World, step: Step, b: Budgets, a: Answers)
    requires Inv(w) && w.session.pendingApproval.None? && !w.session.execution.ExecutionBlocked?
    ensures var v := DenyStep(w, step, b); Inv(v) && Moves(w, v) && Appends(w, v, a)
  {
    var v := DenyStep(w, step, b);
    assert v.log == w.log && v.blocked == w.blocked && v.approvals == w.approvals;
  }

  /** The records after an invocation, told apart by what backs it. */
  lemma SettleKeeps(w: World, v: World, inv: Invocation, a: Answers)
    requires Inv(w) && Granted(w, inv, a)
    requires v.approvals == SettleApproval(w.approvals, inv.basis) && v.log == w.log + [inv]
    requires w.session.pendingApproval.None? || inv.basis == ByApproval(w.session.pendingApproval.value)
    requires v.session.pendingApproval.None?
    ensures ApprovalsOK(v) && LogOK(v) && ApprovalsMove(w, v) && Appends(w, v, a)
  {
    forall id: nat
      ensures if id < |v.approvals| then UsedAsGranted(v.approvals[id], Uses(v.log, id)) else Uses(v.log, id) == 0
    {
      UsesAppend(w.log, [inv], id);
      assert [inv][..0] == [];
    }
  }

  lemma ExecuteKeeps(w: World, step: Step, basis: Basis, b: Budgets, a: Answers)
    requires Inv(w) && !w.session.execution.ExecutionBlocked?
    requires Granted(w, Invocation(step.planID, step.stepID, a.scopeOf(step), basis), a)
    requires w.session.pendingApproval.None? || basis == ByApproval(w.session.pendingApproval.value)
    ensures var v := ExecuteStep(w, step, basis, b, a); Inv(v) && Moves(w, v) && Appends(w, v, a)
  {
    var v := ExecuteStep(w, step, basis, b, a);
    assert v.blocked == w.blocked && v.session.blockedRuntime == w.session.blockedRuntime;
    SettleKeeps(w, v, Invocation(step.planID, step.stepID, a.scopeOf(step), basis), a);
  }

  lemma RunStepKeeps(w: World, given: Step, forced: Option<Grant>, b: Budgets, a: Answers)
    requires Inv(w) && Forced(w, given, forced)
    ensures var r := RunStepWithDecision(w, given, forced, b, a);
            r.Ok? ==> Inv(r.value) && Moves(w, r.value) && Appends(w, r.value, a)
  {
    var r := RunStepWithDecision(w, given, forced, b, a);
    if r.Ok? {
      var basis := RunStepBranches(w, given, forced, b, a, r.value);
      var step := AnnotateStep(given, w.session.planRef);
      if r.value == AskFor(w, step, b, a) {
        AskKeeps(w, step, b, a);
      } else if r.value == DenyStep(w, step, b) {
        DenyKeeps(w, step, b, a);
      } else {
        ExecuteKeeps(w, step, basis, b, a);
      }
    }
  }

  /** What a run of a step comes to, and what it may count on. */
  lemma RunStepBranches(w: World, given: Step, forced: Option<Grant>, b: Budgets, a: Answers, v: World) returns (basis: Basis)
    requires RunStepWithDecision(w, given, forced, b, a) == Ok(v) && Forced(w, given, forced)
    ensures !w.session.execution.ExecutionBlocked?
    ensures var step := AnnotateStep(given, w.session.planRef);
            || (v == AskFor(w, step, b, a) && w.session.pendingApproval.None?)
            || (v == DenyStep(w, step, b) && w.session.pendingApproval.None?)
            || (v == ExecuteStep(w, step, basis, b, a)
                && Granted(w, Invocation(step.planID, step.stepID, a.scopeOf(step), basis), a)
                && (w.session.pendingApproval.None? || basis == ByApproval(w.session.pendingApproval.value)))
  {
    basis := DecisionFor(w.approvals, AnnotateStep(given, w.session.planRef), forced, a).1;
  }

  // ---- fan-out rounds ----

  ghost predicate Standing(w: World, inv: Invocation, a: Answers) {
    match inv.basis
    case PolicyAllowed => a.policy(inv.stepID).Allow?
    case ByApproval(id) =>
      && id < |w.approvals| && w.approvals[id].status.Approved? && w.approvals[id].reply.Always?
      && w.approvals[id].scope == inv.scope && a.policy(inv.stepID).Ask?
  }

  lemma {:induction false} RoundInvocationsStand(w: World, ps: seq<PreparedStep>, a: Answers)
    requires forall p :: p in ps ==> !p.decision.Ask? && (p.decision, p.basis) == DecisionFor(w.approvals, p.step, None, a)
                                     && p.scope == a.scopeOf(p.step)
    ensures forall inv :: inv in RoundInvocations(ps) ==> Standing(w, inv, a)
  {
    if ps != [] {
      var n := |ps| - 1;
      assert ps[n] in ps;
      RoundInvocationsStand(w, ps[..n], a);
    }
  }

  lemma StandingLogKeeps(w: World, v: World, more: seq<Invocation>, a: Answers)
    requires Inv(w) && v.approvals == w.approvals && v.log == w.log + more
    requires forall inv :: inv in more ==> Standing(w, inv, a)
    ensures LogOK(v) && Appends(w, v, a)
  {
    forall id: nat
      ensures if id < |v.approvals| then UsedAsGranted(v.approvals[id], Uses(v.log, id)) else Uses(v.log, id) == 0
    {
      UsesAppend(w.log, more, id);
      UnusedMeans(more, id);
    }
    forall j | |w.log| <= j < |v.log| ensures Granted(w, v.log[j], a) {
      assert v.log[j] == more[j - |w.log|];
      assert Standing(w, v.log[j], a);
    }
  }

  lemma RoundRecords(w: World, anchor: Step, ps: seq<PreparedStep>, b: Budgets, a: Answers)
    requires |ps| > 1
    ensures var v := ExecuteRound(w, anchor, ps, b, a);
            && v.blocked == w.blocked && v.approvals == w.approvals && v.log == w.log + RoundInvocations(ps)
            && v.session.pendingApproval == w.session.pendingApproval && v.session.blockedRuntime == w.session.blockedRuntime
            && v.session.execution.Idle?
  {
  }

  lemma ExecuteRoundKeeps(w: World, anchor: Step, ps: seq<PreparedStep>, b: Budgets, a: Answers)
    requires Inv(w) && |ps| > 1 && w.session.pendingApproval.None? && !w.session.execution.ExecutionBlocked?
    requires forall p :: p in ps ==> !p.decision.Ask? && (p.decision, p.basis) == DecisionFor(w.approvals, p.step, None, a)
                                     && p.scope == a.scopeOf(p.step)
    ensures var v := ExecuteRound(w, anchor, ps, b, a); Inv(v) && Moves(w, v) && Appends(w, v, a)
  {
    var v := ExecuteRound(w, anchor, ps, b, a);
    RoundRecords(w, anchor, ps, b, a);
    RoundInvocationsStand(w, ps, a);
    StandingLogKeeps(w, v, RoundInvocations(ps), a);
  }

  lemma RoundKeeps(w: World, selected: Step, b: Budgets, a: Answers)
    requires Inv(w)
    ensures var r := TryFanoutRound(w, selected, b, a);
            r.RoundDone? ==> Inv(r.world) && Moves(w, r.world) && Appends(w, r.world, a)
  {
    var r := TryFanoutRound(w, selected, b, a);
    if r.RoundDone? {
      var steps := FanoutRound(LatestSteps(w.plans), selected, b, a.systemNow).value;
      PreparedWhen(w.approvals, steps, b, a);
      ExecuteRoundKeeps(w, selected, PrepareRound(w.approvals, steps, b, a).steps, b, a);
    }
  }

  // ---- a driver turn ----

  lemma Unmoved(w: World, a: Answers)
    ensures Moves(w, w) && Appends(w, w, a)
  {
  }

  lemma ResumedKeeps(w: World, id: nat, b: Budgets, a: Answers)
    requires Inv(w) && w.session.pendingApproval == Some(id) && id < |w.approvals| && w.approvals[id].status.Approved?
    requires RecordOK(w.approvals[id])
    ensures var v := ResolvePending(w, id, b, a).world; Inv(v) && Moves(w, v) && Appends(w, v, a)
  {
    RunStepKeeps(w, w.approvals[id].step, Some(Grant(id, Allow)), b, a);
    Unmoved(w, a);
  }

  lemma ResumeKeeps(w: World, id: nat, b: Budgets, a: Answers)
    requires Inv(w) && w.session.pendingApproval == Some(id)
    ensures var v := ResolvePending(w, id, b, a).world; Inv(v) && Moves(w, v) && Appends(w, v, a)
  {
    assert RecordOK(w.approvals[id]);
    if w.approvals[id].status.Approved? {
      ResumedKeeps(w, id, b, a);
    } else {
      Unmoved(w, a);
    }
  }

  /** A session waiting for an approval can always go on waiting or be resumed: its record exists and is
      neither rejected nor spent, so the driver never reports it missing or unresolved. */
  lemma NeverWedgedOnApproval(w: World, id: nat, b: Budgets, a: Answers)
    requires Inv(w) && w.session.pendingApproval == Some(id)
    ensures var t := ResolvePending(w, id, b, a); t.Broken? ==> t.fault != ApprovalNotFound && t.fault != ApprovalNotResolved
    ensures w.approvals[id].status.ApprovalPending? ==> ResolvePending(w, id, b, a) == Stop(w)
    ensures w.approvals[id].status.Approved? ==> ResumeDecision(w.approvals[id]) == Some(Allow)
  {
    assert RecordOK(w.approvals[id]);
  }

  lemma PlanningKeeps(w: World, b: Budgets, a: Answers)
    requires Inv(w)
    ensures var v := CreatePlanFromPlanner(w, b, a).0;
            Inv(v) && Moves(w, v) && v.log == w.log && v.approvals == w.approvals && v.session.pendingApproval == w.session.pendingApproval
  {
    PlanningLeaves(w, b, a);
    SameRecordsKeep(w, CreatePlanFromPlanner(w, b, a).0);
  }

  lemma PlanningLeaves(w: World, b: Budgets, a: Answers)
    ensures var v := CreatePlanFromPlanner(w, b, a).0;
            && v.approvals == w.approvals && v.blocked == w.blocked && v.log == w.log
            && v.session == w.session.(runtimeStartedAt := v.session.runtimeStartedAt)
  {
  }

  lemma SameRecordsKeep(w: World, v: World)
    requires Inv(w) && v.approvals == w.approvals && v.blocked == w.blocked && v.log == w.log
    requires v.session == w.session.(runtimeStartedAt := v.session.runtimeStartedAt)
    ensures Inv(v) && Moves(w, v)
  {
  }

  lemma WorkKeeps(w: World, b: Budgets, a: Answers)
    requires Inv(w)
    ensures var v := WorkOnPlan(w, b, a).world; Inv(v) && Moves(w, v) && Appends(w, v, a)
  {
    match SelectNextStep(w.session.currentStep, w.session.inFlightStep, PinnedSteps(w), LatestSteps(w.plans), b)
    case NeedsPlanning => PlanningKeeps(w, b, a);
    case NothingToRun =>
    case RunStep(step) =>
      RoundKeeps(w, step, b, a);
      RunStepKeeps(w, step, None, b, a);
  }

  lemma FromPlanned(w: World, mid: World, v: World, a: Answers)
    requires Moves(w, mid) && mid.log == w.log && mid.approvals == w.approvals
    requires mid.session.pendingApproval == w.session.pendingApproval && Moves(mid, v) && Appends(mid, v, a)
    ensures Moves(w, v) && Appends(w, v, a)
  {
    forall j | |w.log| <= j < |v.log| ensures Granted(w, v.log[j], a) {
      assert Granted(mid, v.log[j], a);
    }
  }

  lemma PlanAndWorkKeeps(w: World, b: Budgets, opening: Answers, a: Answers)
    requires Inv(w)
    ensures var v := WorkOnPlan(CreatePlanFromPlanner(w, b, opening).0, b, a).world; Inv(v) && Moves(w, v) && Appends(w, v, a)
  {
    var mid := CreatePlanFromPlanner(w, b, opening).0;
    PlanningKeeps(w, b, opening);
    WorkKeeps(mid, b, a);
    FromPlanned(w, mid, WorkOnPlan(mid, b, a).world, a);
  }

  lemma TurnKeeps(w: World, b: Budgets, opening: Answers, a: Answers)
    requires Inv(w)
    ensures var v := DriverTurn(w, b, opening, a).world; Inv(v) && Moves(w, v) && Appends(w, v, a)
  {
    if w.session.pendingApproval.Some? {
      ResumeKeeps(w, w.session.pendingApproval.value, b, a);
    } else if !HasPlan(w.plans) {
      PlanningKeeps(w, b, opening);
      PlanAndWorkKeeps(w, b, opening, a);
    } else {
      WorkKeeps(w, b, a);
    }
  }
}

/** What one turn of the driver does, told by what can be seen of it from outside: what it selects, when it rests, when
    it faults and when it goes on. */
module DriverTurns {
  import opened PlanModel
  import opened Aggregates
  import opened PlanOutcome
  import opened StepSelection
  import opened SessionKernel
  import opened StepCalls
  import opened RoundCalls

  // ---- what is selected ----

  /** May be run as it stands: not started, started, or failed with a strategy that tries it again. */
  predicate CanRun(s: Step, b: Budgets) {
    match s.status
    case Unset => true
    case Pending => true
    case Running => true
    case Failed =>
      (match s.onFail.strategy
       case "abort" => false
       case "replan" => false
       case "continue" => !OutOfAttempts(s, b)
       case _ => true)
    case _ => false
  }

  /** The first step with this id, which is the id of one. */
  predicate FirstCalled(steps: seq<Step>, id: string, i: nat) {
    id != "" && i < |steps| && steps[i].stepID == id && forall j :: 0 <= j < i ==> steps[j].stepID != id
  }

  ghost predicate Remembered(steps: seq<Step>, id: string, b: Budgets) {
    exists i: nat :: FirstCalled(steps, id, i) && CanRun(steps[i], b)
  }

  predicate NotStarted(s: Step) {
    s.status == Unset || s.status == Pending
  }

  predicate FirstNotStarted(steps: seq<Step>, i: nat) {
    i < |steps| && NotStarted(steps[i]) && forall j :: 0 <= j < i ==> !NotStarted(steps[j])
  }

  /** Failed, and not done with: only a strategy to continue is ever used up. */
  predicate StillFailed(s: Step, b: Budgets) {
    s.status == Failed && !(s.onFail.strategy == "continue" && OutOfAttempts(s, b))
  }

  predicate FirstStillFailed(steps: seq<Step>, i: nat, b: Budgets) {
    i < |steps| && StillFailed(steps[i], b) && forall j :: 0 <= j < i ==> !StillFailed(steps[j], b)
  }

  /** What is to be done next: the step in flight, else the current one, as the plan the session is pinned to knows
      them; else the first step of the latest plan not started; else its first failed step, in the way its strategy says. */
  ghost predicate Next(current: string, flying: string, pinned: seq<Step>, latest: seq<Step>, b: Budgets, r: Selection) {
    if Remembered(pinned, flying, b) then
      exists i: nat :: FirstCalled(pinned, flying, i) && r == RunStep(pinned[i])
    else if Remembered(pinned, current, b) then
      exists i: nat :: FirstCalled(pinned, current, i) && r == RunStep(pinned[i])
    else if exists i: nat :: FirstNotStarted(latest, i) then
      exists i: nat :: FirstNotStarted(latest, i) && r == RunStep(latest[i])
    else if exists i: nat :: FirstStillFailed(latest, i, b) then
      exists i: nat :: FirstStillFailed(latest, i, b) &&
        r == match latest[i].onFail.strategy
             case "replan" => NeedsPlanning
             case "abort" => NothingToRun
             case _ => RunStep(latest[i])
    else r == NothingToRun
  }

  lemma CanRunIs(s: Step, b: Budgets)
    ensures Executable(s, b) <==> CanRun(s, b)
    ensures StillFailed(s, b) <==> s.status.Failed? && !Spent(s, b)
  {
    OutOfAttemptsIs(s, b);
  }

  lemma RememberedIs(steps: seq<Step>, id: string, b: Budgets)
    ensures match ExecutableStepByID(steps, id, b)
            case Some(s) => Remembered(steps, id, b) && exists i: nat :: FirstCalled(steps, id, i) && s == steps[i]
            case None => !Remembered(steps, id, b)
  {
    match FindStep(steps, id)
    case Some(i) =>
      CanRunIs(steps[i], b);
      if id != "" {
        assert FirstCalled(steps, id, i);
        forall j: nat | FirstCalled(steps, id, j) ensures j == i { }
      }
    case None =>
  }

  lemma FirstPendingIs(steps: seq<Step>)
    ensures match FirstPending(steps)
            case Some(i) => FirstNotStarted(steps, i)
            case None => forall i: nat :: !FirstNotStarted(steps, i)
  {
    if FirstPending(steps).None? {
      forall i: nat ensures !FirstNotStarted(steps, i) {
        if i < |steps| {
          assert steps[i] in steps;
        }
      }
    }
  }

  lemma {:induction false} FirstFailedIs(steps: seq<Step>, b: Budgets)
    ensures match FirstFailed(steps, b)
            case Some(i) => FirstStillFailed(steps, i, b)
            case None => forall i: nat :: !FirstStillFailed(steps, i, b)
  {
    if steps != [] {
      CanRunIs(steps[0], b);
      FirstFailedIs(steps[1..], b);
      if FirstFailed(steps, b).None? {
        forall i: nat ensures !FirstStillFailed(steps, i, b) {
          if 0 < i < |steps| {
            assert steps[i] == steps[1..][i-1];
            assert !FirstStillFailed(steps[1..], i - 1, b);
          }
        }
      }
    }
  }

  lemma NothingStarted(latest: seq<Step>, b: Budgets)
    ensures Next("", "", [], latest, b, SelectUnpinned(latest, b))
  {
    FirstPendingIs(latest);
    FirstFailedIs(latest, b);
  }

  lemma SelectedNext(current: string, flying: string, pinned: seq<Step>, latest: seq<Step>, b: Budgets)
    ensures Next(current, flying, pinned, latest, b, SelectNextStep(current, flying, pinned, latest, b))
  {
    RememberedIs(pinned, flying, b);
    RememberedIs(pinned, current, b);
    NothingStarted(latest, b);
  }

  /** The plan the session is pinned to: the stored one it names while it remembers a step, else its latest. */
  function PinnedTo(w: World): seq<Step> {
    var s := w.session;
    if (s.currentStep == "" && s.inFlightStep == "") || s.planRef == 0 || s.planRef > |w.plans|
    then if HasPlan(w.plans) then w.plans[|w.plans|-1].steps else []
    else w.plans[s.planRef-1].steps
  }

  ghost predicate NextOf(w: World, b: Budgets, r: Selection) {
    Next(w.session.currentStep, w.session.inFlightStep, PinnedTo(w),
         if HasPlan(w.plans) then w.plans[|w.plans|-1].steps else [], b, r)
  }

  // ---- planning ----

  /** A planned step as it is stored: waiting if it had no status, of the new plan if it named none. */
  predicate StoredAs(planned: Step, stored: Step, planID: nat) {
    stored == planned.(status := if planned.status.Unset? then Pending else planned.status,
                       planID := if planned.planID == 0 then planID else planned.planID)
  }

  function Least(m: int, n: int): int {
    if m < n then m else n
  }

  /** A new plan of the session behind all others: the first planned steps, as many as the budget allows. */
  predicate PlanAdded(plans: seq<Plan>, after: seq<Plan>, planned: seq<Step>, b: Budgets) {
    var n := |plans|;
    && |after| == n + 1 && after[..n] == plans
    && after[n].own && after[n].planID == n + 1 && after[n].status.Active?
    && after[n].revision == (if HasPlan(plans) then plans[n-1].revision else 0) + 1
    && |after[n].steps| == Least(b.maxSteps, |planned|)
    && forall i :: 0 <= i < |after[n].steps| ==> StoredAs(planned[i], after[n].steps[i], n + 1)
  }

  /** Which fault planning ends in, exactly when, and what it leaves. */
  lemma PlanningLeaves(w: World, b: Budgets, a: Answers)
    ensures var (v, fault) := CreatePlanFromPlanner(w, b, a);
            var late, none := Late(w.session, b, a.now), b.maxSteps <= 0 || a.planned == [];
            var spent := b.maxPlanRevisions > 0 && HasPlan(w.plans) && w.plans[|w.plans|-1].revision >= b.maxPlanRevisions;
            && fault == (if late then Some(RuntimeBudgetExceeded) else if none then Some(NoSteps)
                         else if a.planningRefused then Some(Refused) else if spent then Some(PlanRevisionBudgetExceeded) else None)
            && (if fault.None? then PlanAdded(w.plans, v.plans, a.planned, b) else v.plans == w.plans)
            && v.session == w.session.(runtimeStartedAt :=
                 if late || w.session.runtimeStartedAt != 0 then w.session.runtimeStartedAt else a.now)
            && v.approvals == w.approvals && v.blocked == w.blocked && v.log == w.log
  {
  }

  // ---- the turn ----

  /** After work that was done the driver rests if the session is over or waits for an answer, and else goes on. */
  predicate Worked(t: Turn, v: World) {
    t == if Over(v.session) || v.session.pendingApproval.Some? then Stop(v) else Again(v)
  }

  /** A turn that is refused, or finds the session over or blocked, does nothing. */
  lemma IdleTurn(w: World, b: Budgets, opening: Answers, a: Answers)
    ensures opening.refused ==> DriverTurn(w, b, opening, a) == Broken(w, Refused)
    ensures !opening.refused && (Over(w.session) || w.session.execution.ExecutionBlocked?) ==> DriverTurn(w, b, opening, a) == Stop(w)
  {
  }

  predicate Engaged(w: World, opening: Answers) {
    !opening.refused && !Over(w.session) && !w.session.execution.ExecutionBlocked?
  }

  /** Approved, and the record is of the step it holds. */
  predicate Answered(rec: Approval) {
    rec.status.Approved? && !rec.reply.NoReply? && rec.stepID == rec.step.stepID && rec.toolName == rec.step.toolName
  }

  /** A session that awaits an answer: it rests while there is none, and runs the step when it was approved. */
  lemma AwaitingTurn(w: World, b: Budgets, opening: Answers, a: Answers)
    requires Engaged(w, opening) && w.session.pendingApproval.Some?
    ensures var t, id := DriverTurn(w, b, opening, a), w.session.pendingApproval.value;
            if id >= |w.approvals| then t == Broken(w, ApprovalNotFound)
            else if w.approvals[id].status.ApprovalPending? then t == Stop(w)
            else if !Answered(w.approvals[id]) then t == Broken(w, ApprovalNotResolved)
            else
              var grant := Grant(id, if w.approvals[id].reply.Reject? then Deny else Allow);
              match RunStepWithDecision(w, w.approvals[id].step, Some(grant), b, a)
              case Ok(v) => Worked(t, v)
              case Err(fault) => t == Broken(w, fault)
  {
  }

  /** What a turn makes of the step it has selected: a round if one takes place, else the step by itself. A step held
      back is not run, and the driver rests. */
  ghost predicate WorksOn(t: Turn, w: World, s: Step, b: Budgets, a: Answers) {
    var round, alone := TryFanoutRound(w, s, b, a), RunStepWithDecision(w, s, None, b, a);
    match round
    case RoundDone(v) => Worked(t, v)
    case RoundFailed(fault) => t == Broken(w, fault)
    case RoundDeclined =>
      if alone.Ok? then Worked(t, alone.value)
      else if alone.error == StepBackoffActive then t == Stop(w)
      else t == Broken(w, alone.error)
  }

  /** What a turn makes of what is to be done next. */
  ghost predicate Works(t: Turn, w: World, r: Selection, b: Budgets, a: Answers) {
    match r
    case NothingToRun => t == Stop(w)
    case NeedsPlanning =>
      (var (v, fault) := CreatePlanFromPlanner(w, b, a);
       t == if fault.Some? then Broken(v, fault.value) else Again(v))
    case RunStep(s) => WorksOn(t, w, s, b, a)
  }

  lemma WorkIs(w: World, b: Budgets, a: Answers) returns (r: Selection)
    ensures NextOf(w, b, r) && Works(WorkOnPlan(w, b, a), w, r, b, a)
  {
    r := SelectNextStep(w.session.currentStep, w.session.inFlightStep, PinnedSteps(w), LatestSteps(w.plans), b);
    SelectedNext(w.session.currentStep, w.session.inFlightStep, PinnedSteps(w), LatestSteps(w.plans), b);
  }

  /** A session that awaits nothing works on what is next; one without a plan gets one first. */
  lemma WorkingTurn(w: World, b: Budgets, opening: Answers, a: Answers) returns (mid: World, r: Selection)
    requires Engaged(w, opening) && w.session.pendingApproval.None?
    ensures var t, (v, fault) := DriverTurn(w, b, opening, a), CreatePlanFromPlanner(w, b, opening);
            && mid == (if HasPlan(w.plans) then w else v)
            && if !HasPlan(w.plans) && fault.Some? then t == Broken(v, fault.value)
               else NextOf(mid, b, r) && Works(t, mid, r, b, a)
  {
    mid := if HasPlan(w.plans) then w else CreatePlanFromPlanner(w, b, opening).0;
    r := WorkIs(mid, b, a);
  }

  // ---- when it rests ----

  /** A round takes place, or faults. */
  ghost predicate RoundHandles(w: World, s: Step, b: Budgets, a: Answers) {
    !TryFanoutRound(w, s, b, a).RoundDeclined?
  }

  /** The step that is next is held back, with attempts left and time, and no round is run instead. */
  ghost predicate NextHeldBack(w: World, r: Selection, b: Budgets, a: Answers) {
    && r.RunStep? && !RoundHandles(w, r.step, b, a)
    && !Late(w.session, b, a.now) && !OutOfAttempts(r.step, b) && HeldBack(r.step, a.now)
  }

  /** There is one answer to what is next. */
  lemma NextIsOne(current: string, flying: string, pinned: seq<Step>, latest: seq<Step>, b: Budgets, r: Selection, q: Selection)
    requires Next(current, flying, pinned, latest, b, r) && Next(current, flying, pinned, latest, b, q)
    ensures r == q
  {
    forall i: nat, j: nat | FirstCalled(pinned, flying, i) && FirstCalled(pinned, flying, j) ensures i == j { }
    forall i: nat, j: nat | FirstCalled(pinned, current, i) && FirstCalled(pinned, current, j) ensures i == j { }
    forall i: nat, j: nat | FirstNotStarted(latest, i) && FirstNotStarted(latest, j) ensures i == j { }
    forall i: nat, j: nat | FirstStillFailed(latest, i, b) && FirstStillFailed(latest, j, b) ensures i == j { }
  }

  /** Running a step, or a round, never leaves everything as it was. */
  lemma WorkShows(w: World, s: Step, b: Budgets, a: Answers)
    requires !Over(w.session)
    ensures var r := RunStepWithDecision(w, s, None, b, a); r.Ok? ==> !Worked(Stop(w), r.value)
    ensures var r := TryFanoutRound(w, s, b, a); r.RoundDone? ==> !Worked(Stop(w), r.world)
  {
    if RunStepWithDecision(w, s, None, b, a).Ok? {
      var step, basis := StepDecided(w, s, b, a);
      StepFaults(w, s, None, b, a);
    }
    if TryFanoutRound(w, s, b, a).RoundDone? {
      var ps := RoundDoneIs(w, s, b, a);
      RoundPending(w, s, ps, b, a);
    }
  }

  lemma RoundPending(w: World, s: Step, ps: seq<PreparedStep>, b: Budgets, a: Answers)
    requires |ps| > 1
    ensures ExecuteRound(w, s, ps, b, a).session.pendingApproval == w.session.pendingApproval
  {
  }

  lemma WorkRests(t: Turn, w: World, r: Selection, b: Budgets, a: Answers)
    requires Works(t, w, r, b, a) && !Over(w.session) && !w.session.execution.ExecutionBlocked? && w.session.pendingApproval.None?
    ensures t == Stop(w) <==> r.NothingToRun? || NextHeldBack(w, r, b, a)
  {
    if r.RunStep? {
      WorkShows(w, r.step, b, a);
      StepFaults(w, r.step, None, b, a);
    }
  }

  /** An open session with a plan rests, with its books as they were, exactly when its answer is still out, or nothing is
      to be done, or what is next is a step held back with attempts left. */
  lemma RestsIff(w: World, b: Budgets, opening: Answers, a: Answers, r: Selection)
    requires Engaged(w, opening) && NextOf(w, b, r) && (w.session.pendingApproval.Some? || HasPlan(w.plans))
    ensures DriverTurn(w, b, opening, a) == Stop(w) <==>
              match w.session.pendingApproval
              case Some(id) => id < |w.approvals| && w.approvals[id].status.ApprovalPending?
              case None => r.NothingToRun? || NextHeldBack(w, r, b, a)
  {
    match w.session.pendingApproval
    case Some(id) => AwaitingRests(w, b, opening, a, id);
    case None =>
      var mid, q := WorkingTurn(w, b, opening, a);
      NextIsOne(w.session.currentStep, w.session.inFlightStep, PinnedTo(w), w.plans[|w.plans|-1].steps, b, r, q);
      WorkRests(DriverTurn(w, b, opening, a), w, r, b, a);
  }

  lemma AwaitingRests(w: World, b: Budgets, opening: Answers, a: Answers, id: nat)
    requires Engaged(w, opening) && w.session.pendingApproval == Some(id)
    ensures DriverTurn(w, b, opening, a) == Stop(w) <==> id < |w.approvals| && w.approvals[id].status.ApprovalPending?
  {
    AwaitingTurn(w, b, opening, a);
    if id < |w.approvals| && Answered(w.approvals[id]) {
      var grant := Grant(id, if w.approvals[id].reply.Reject? then Deny else Allow);
      if RunStepWithDecision(w, w.approvals[id].step, Some(grant), b, a).Ok? {
        var step := StepForced(w, w.approvals[id].step, grant, b, a);
        StepFaults(w, w.approvals[id].step, Some(grant), b, a);
      }
    }
  }

  /** A turn faults over a step held back exactly when it resumes an answered step that is held back: on a step of the
      plan it rests instead. */
  lemma FaultsOverBackoffIff(w: World, b: Budgets, opening: Answers, a: Answers)
    ensures (var t := DriverTurn(w, b, opening, a); t.Broken? && t.fault == StepBackoffActive) <==>
              && Engaged(w, opening) && w.session.pendingApproval.Some? && w.session.pendingApproval.value < |w.approvals|
              && var rec := w.approvals[w.session.pendingApproval.value];
                 Answered(rec) && !Late(w.session, b, a.now) && !OutOfAttempts(rec.step, b) && HeldBack(rec.step, a.now)
  {
    IdleTurn(w, b, opening, a);
    if Engaged(w, opening) {
      match w.session.pendingApproval
      case Some(id) =>
        AwaitingTurn(w, b, opening, a);
        if id < |w.approvals| && Answered(w.approvals[id]) {
          StepFaults(w, w.approvals[id].step, Some(Grant(id, if w.approvals[id].reply.Reject? then Deny else Allow)), b, a);
        }
      case None => NoFaultOverBackoff(w, b, opening, a);
    }
  }

  lemma PlanningFaults(w: World, b: Budgets, a: Answers)
    ensures CreatePlanFromPlanner(w, b, a).1 != Some(StepBackoffActive)
  {
  }

  lemma WorkFaults(t: Turn, w: World, r: Selection, b: Budgets, a: Answers)
    requires Works(t, w, r, b, a)
    ensures !(t.Broken? && t.fault == StepBackoffActive)
  {
    PlanningFaults(w, b, a);
    if r.RunStep? {
      RoundBackoff(w, r.step, b, a);
    }
  }

  lemma NoFaultOverBackoff(w: World, b: Budgets, opening: Answers, a: Answers)
    requires Engaged(w, opening) && w.session.pendingApproval.None?
    ensures var t := DriverTurn(w, b, opening, a); !(t.Broken? && t.fault == StepBackoffActive)
  {
    var mid, r := WorkingTurn(w, b, opening, a);
    PlanningFaults(w, b, opening);
    if HasPlan(w.plans) || CreatePlanFromPlanner(w, b, opening).1.None? {
      WorkFaults(DriverTurn(w, b, opening, a), mid, r, b, a);
    }
  }

  lemma {:induction false} PreparingBackoff(approvals: seq<Approval>, steps: seq<Step>, b: Budgets, a: Answers)
    ensures PrepareRound(approvals, steps, b, a) != PreparationFailed(StepBackoffActive)
  {
    if steps != [] {
      PreparingBackoff(approvals, steps[1..], b, a);
    }
  }

  lemma RoundBackoff(w: World, s: Step, b: Budgets, a: Answers)
    ensures TryFanoutRound(w, s, b, a) != RoundFailed(StepBackoffActive)
  {
    PreparingBackoff(w.approvals, RoundSteps(LatestSteps(w.plans), s, b, a.systemNow), b, a);
  }

  /** A step is only ever asked about when it is not held back, so resuming it later does not fault over that. */
  lemma AskedWhenNotHeldBack(w: World, given: Step, b: Budgets, a: Answers, later: int)
    requires RunStepWithDecision(w, given, None, b, a).Ok? && a.now <= later
    requires |RunStepWithDecision(w, given, None, b, a).value.approvals| > |w.approvals|
    ensures !HeldBack(RunStepWithDecision(w, given, None, b, a).value.approvals[|w.approvals|].step, later)
  {
    StepFaults(w, given, None, b, a);
    var step, basis := StepDecided(w, given, b, a);
  }
}

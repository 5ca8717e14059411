/** What one turn of the driver costs: attempts are spent, or a plan revision is. */
module DriverBudget {
  import opened PlanModel
  import opened Aggregates
  import opened PlanOutcome
  import opened StepSelection
  import opened SessionKernel
  import opened BatchWrites

  // ---- how plans are kept ----

  /** Steps of a plan have distinct ids, and the plan they name is their own or none that stands before it. */
  ghost predicate WellStoredPlan(p: Plan, planID: nat) {
    && p.planID == planID
    && DistinctIDs(p.steps)
    && forall i :: 0 <= i < |p.steps| ==> p.steps[i].planID >= planID
  }

  /** From plan `e` on, whichever session they are of. */
  ghost predicate WellStoredFrom(plans: seq<Plan>, e: nat) {
    forall k :: e <= k < |plans| ==> WellStoredPlan(plans[k], k + 1)
  }

  ghost predicate WellStored(plans: seq<Plan>) {
    WellStoredFrom(plans, 0)
  }

  /** The session has a plan, and its latest one is well stored. */
  ghost predicate LatestStored(plans: seq<Plan>) {
    HasPlan(plans) && WellStoredPlan(plans[|plans|-1], |plans|)
  }

  /** An awaited approval exists and is not approved by a rejection. */
  predicate PendingOK(w: World) {
    w.session.pendingApproval.Some? ==>
      w.session.pendingApproval.value < |w.approvals| && Answered(w.approvals[w.session.pendingApproval.value])
  }

  predicate Answered(rec: Approval) {
    rec.status.Approved? ==> !rec.reply.Reject?
  }

  /** The plan the session is pinned to, be it another session's. No step of a plan before it is ever run again. */
  function PinnedAt(w: World): (e: nat)
    ensures e <= |w.plans| && (HasPlan(w.plans) ==> e < |w.plans|)
  {
    PlanIndex(w.plans, w.session.planRef)
  }

  /** What the driver relies on. */
  ghost predicate Ready(w: World) {
    WellStoredFrom(w.plans, PinnedAt(w)) && PendingOK(w)
  }

  /** No step names one of so many stored plans. */
  predicate NamesNone(steps: seq<Step>, stored: nat) {
    forall i :: 0 <= i < |steps| ==> steps[i].planID == 0 || steps[i].planID > stored
  }

  /** What may become a plan in a store of so many plans, of any session: its steps name none of them. */
  ghost predicate GoodPlan(steps: seq<Step>, stored: nat) {
    DistinctIDs(steps) && NamesNone(steps, stored)
  }

  predicate MayPlan(revision: nat, b: Budgets) {
    b.maxSteps > 0 && (b.maxPlanRevisions > 0 ==> revision < b.maxPlanRevisions)
  }

  /** The planner's answer is good if it can become a plan at all. */
  ghost predicate GoodAnswer(stored: nat, revision: nat, b: Budgets, a: Answers) {
    MayPlan(revision, b) ==> GoodPlan(PlannedSteps(b, a), stored)
  }

  lemma FindIsAt(steps: seq<Step>, i: nat)
    requires DistinctIDs(steps) && i < |steps|
    ensures FindStep(steps, steps[i].stepID) == Some(i)
  {
    match FindStep(steps, steps[i].stepID)
    case Some(j) =>
    case None =>
  }

  /** A step of the latest plan is kept there: it names that plan or one that does not exist. */
  lemma LatestIsHome(plans: seq<Plan>, i: nat)
    requires LatestStored(plans) && i < |LatestSteps(plans)|
    ensures PlanIndex(plans, LatestSteps(plans)[i].planID) == |plans| - 1
  {
  }

  /** No step is kept in a plan before its own. */
  lemma NoneKeptEarlier(plans: seq<Plan>, k: nat, i: nat)
    requires HasPlan(plans) && k < |plans| && WellStoredPlan(plans[k], k + 1) && i < |plans[k].steps|
    ensures k <= PlanIndex(plans, plans[k].steps[i].planID) < |plans| && plans[k].steps[i].planID > k
  {
  }

  // ---- attempts that are left ----

  function Remaining(s: Step, b: Budgets): nat {
    if s.attempt < AllowedAttempts(s, b) then AllowedAttempts(s, b) - s.attempt else 0
  }

  function RemainingSteps(steps: seq<Step>, b: Budgets): nat {
    if steps == [] then 0 else RemainingSteps(steps[..|steps|-1], b) + Remaining(steps[|steps|-1], b)
  }

  function RemainingPlans(plans: seq<Plan>, b: Budgets): nat {
    if plans == [] then 0 else RemainingPlans(plans[..|plans|-1], b) + RemainingSteps(plans[|plans|-1].steps, b)
  }

  lemma {:induction false} RemainingStepsUpdate(steps: seq<Step>, i: nat, s: Step, b: Budgets)
    requires i < |steps|
    ensures RemainingSteps(steps[i := s], b) + Remaining(steps[i], b) == RemainingSteps(steps, b) + Remaining(s, b)
  {
    var n := |steps| - 1;
    if i == n {
      assert steps[i := s][..n] == steps[..n];
    } else {
      RemainingStepsUpdate(steps[..n], i, s, b);
      assert steps[i := s][..n] == steps[..n][i := s];
    }
  }

  lemma {:induction false} RemainingPlansUpdate(plans: seq<Plan>, k: nat, p: Plan, b: Budgets)
    requires k < |plans|
    ensures RemainingPlans(plans[k := p], b) + RemainingSteps(plans[k].steps, b)
            == RemainingPlans(plans, b) + RemainingSteps(p.steps, b)
  {
    var n := |plans| - 1;
    if k == n {
      assert plans[k := p][..n] == plans[..n];
    } else {
      RemainingPlansUpdate(plans[..n], k, p, b);
      assert plans[k := p][..n] == plans[..n][k := p];
    }
  }

  /** The step and its next state: same id, same rules, possibly another attempt count. */
  ghost predicate Succeeds(before: Step, after: Step) {
    after.stepID == before.stepID && after.planID == before.planID && after.onFail == before.onFail
  }

  lemma RemainingAfter(before: Step, after: Step, b: Budgets)
    requires after.onFail == before.onFail
    ensures after.attempt == before.attempt ==> Remaining(after, b) == Remaining(before, b)
    ensures after.attempt == before.attempt + 1 && !Exhausted(before, b) ==> Remaining(after, b) + 1 == Remaining(before, b)
  {
  }

  /** What a write does: nothing, or it overwrites one step of the plan the step is kept in. */
  lemma WriteStepIs(plans: seq<Plan>, step: Step, b: Budgets) returns (k: nat)
    ensures k == PlanIndex(plans, step.planID) && (k == |plans| ==> WriteStep(plans, step, b) == plans)
    ensures k < |plans| ==>
              match FindStep(plans[k].steps, step.stepID)
              case None => WriteStep(plans, step, b) == plans
              case Some(i) =>
                WriteStep(plans, step, b)
                == plans[k := WithSteps(plans[k], plans[k].steps[i := AnnotateStep(step, plans[k].planID)], b)]
  {
    k := PlanIndex(plans, step.planID);
  }

  /** A step of the latest plan that names it is stored there. */
  lemma LatestWritten(plans: seq<Plan>, stored: Step, i: nat, b: Budgets)
    requires HasPlan(plans) && plans[|plans|-1].planID == |plans| && stored.planID == |plans|
    requires FindStep(LatestSteps(plans), stored.stepID) == Some(i)
    ensures var after := WriteStep(plans, stored, b);
            && |after| == |plans| && HasPlan(after) && after[|plans|-1].planID == |plans|
            && LatestSteps(after) == LatestSteps(plans)[i := stored]
  {
    var home := WriteStepIs(plans, stored, b);
  }

  lemma OverwriteKeepsStored(p: Plan, planID: nat, i: nat, step: Step, b: Budgets)
    requires WellStoredPlan(p, planID) && i < |p.steps| && step.stepID == p.steps[i].stepID && step.planID >= planID
    ensures WellStoredPlan(WithSteps(p, p.steps[i := step], b), planID)
  {
  }

  lemma WriteKeepsOwners(plans: seq<Plan>, step: Step, b: Budgets)
    ensures |WriteStep(plans, step, b)| == |plans|
    ensures HasPlan(WriteStep(plans, step, b)) == HasPlan(plans) && Revision(WriteStep(plans, step, b)) == Revision(plans)
  {
    var k := WriteStepIs(plans, step, b);
  }

  lemma OverwriteKeepsOwners(plans: seq<Plan>, k: nat, steps: seq<Step>, b: Budgets)
    requires k < |plans|
    ensures var after := plans[k := WithSteps(plans[k], steps, b)];
            HasPlan(after) == HasPlan(plans) && Revision(after) == Revision(plans)
  {
  }

  lemma BatchKeepsOwners(plans: seq<Plan>, results: seq<Step>, b: Budgets)
    ensures HasPlan(WriteSteps(plans, results, b)) == HasPlan(plans) && Revision(WriteSteps(plans, results, b)) == Revision(plans)
  {
    if results != [] && PlanIndex(plans, results[0].planID) < |plans| {
      var k := PlanIndex(plans, results[0].planID);
      OverwriteKeepsOwners(plans, k, ReplaceSteps(plans[k].steps, AnnotateSteps(results, plans[k].planID)), b);
    }
  }

  /** Running a step, however it is decided, stores one step. */
  lemma StepWrites(w: World, given: Step, forced: Option<Grant>, b: Budgets, a: Answers) returns (s: Step)
    requires RunStepWithDecision(w, given, forced, b, a).Ok?
    ensures RunStepWithDecision(w, given, forced, b, a).value.plans == WriteStep(w.plans, s, b)
  {
    var step := AnnotateStep(given, w.session.planRef);
    match DecisionFor(w.approvals, step, forced, a)
    case (Ask, _) => s := step.(status := Blocked);
    case (Deny, _) => s := step.(attempt := step.attempt + 1, status := Failed);
    case (Allow, basis) =>
      var ran := Ran(w, step, b, a);
      s := WithBackoff(ran, PhaseAfter(Latest(w.plans), ran, ran.status.Completed?, b), a.now);
  }

  /** Whatever step is written, plans stay well stored. */
  lemma WriteKeepsStored(plans: seq<Plan>, e: nat, step: Step, b: Budgets)
    requires WellStoredFrom(plans, e)
    ensures WellStoredFrom(WriteStep(plans, step, b), e)
  {
    var k := WriteStepIs(plans, step, b);
    if e <= k < |plans| {
      assert WellStoredPlan(plans[k], k + 1);
      match FindStep(plans[k].steps, step.stepID)
      case None =>
      case Some(i) =>
        OverwriteKeepsStored(plans[k], k + 1, i, AnnotateStep(step, plans[k].planID), b);
    }
  }

  // ---- live plans ----

  /** Attempts left in the plans from `e` on. */
  function LiveSum(plans: seq<Plan>, e: nat, b: Budgets): nat
    requires e <= |plans|
  {
    RemainingPlans(plans[e..], b)
  }

  lemma {:induction false} RemainingPlansFirst(plans: seq<Plan>, b: Budgets)
    requires plans != []
    ensures RemainingPlans(plans, b) == RemainingSteps(plans[0].steps, b) + RemainingPlans(plans[1..], b)
  {
    var n := |plans| - 1;
    if n > 0 {
      RemainingPlansFirst(plans[..n], b);
      assert plans[..n][1..] == plans[1..][..n-1];
    } else {
      assert plans[1..] == [] && plans[..0] == [];
    }
  }

  /** Moving on to a later plan writes off what the plans before it had left. */
  lemma {:induction false} LiveDrops(plans: seq<Plan>, e: nat, f: nat, b: Budgets)
    requires e <= f <= |plans|
    ensures LiveSum(plans, f, b) <= LiveSum(plans, e, b)
    ensures e < f ==> LiveSum(plans, f, b) + RemainingSteps(plans[e].steps, b) <= LiveSum(plans, e, b)
    decreases f - e
  {
    if e < f {
      RemainingPlansFirst(plans[e..], b);
      assert plans[e..][1..] == plans[e+1..];
      LiveDrops(plans, e + 1, f, b);
    }
  }

  lemma LiveUpdate(plans: seq<Plan>, e: nat, k: nat, p: Plan, b: Budgets)
    requires e <= k < |plans|
    ensures LiveSum(plans[k := p], e, b) + RemainingSteps(plans[k].steps, b) == LiveSum(plans, e, b) + RemainingSteps(p.steps, b)
  {
    assert plans[k := p][e..] == plans[e..][k - e := p];
    RemainingPlansUpdate(plans[e..], k - e, p, b);
  }

  lemma LiveUntouched(plans: seq<Plan>, e: nat, k: nat, p: Plan, b: Budgets)
    requires k < e <= |plans|
    ensures LiveSum(plans[k := p], e, b) == LiveSum(plans, e, b)
  {
    assert plans[k := p][e..] == plans[e..];
  }

  lemma {:induction false} StepShare(steps: seq<Step>, i: nat, b: Budgets)
    requires i < |steps|
    ensures Remaining(steps[i], b) <= RemainingSteps(steps, b)
  {
    if i < |steps| - 1 {
      StepShare(steps[..|steps|-1], i, b);
    }
  }

  /** Overwriting a live step exchanges its share for that of the step written. */
  lemma OverwriteLive(plans: seq<Plan>, e: nat, k: nat, i: nat, step: Step, b: Budgets)
    requires e <= k < |plans| && i < |plans[k].steps|
    ensures LiveSum(plans[k := WithSteps(plans[k], plans[k].steps[i := step], b)], e, b) + Remaining(plans[k].steps[i], b)
            == LiveSum(plans, e, b) + Remaining(step, b)
  {
    RemainingStepsUpdate(plans[k].steps, i, step, b);
    LiveUpdate(plans, e, k, WithSteps(plans[k], plans[k].steps[i := step], b), b);
  }

  /** Writing any step adds at most that step's own share. */
  lemma WriteLive(plans: seq<Plan>, e: nat, step: Step, b: Budgets)
    requires e <= |plans|
    ensures LiveSum(WriteStep(plans, step, b), e, b) <= LiveSum(plans, e, b) + Remaining(step, b)
    ensures var k := PlanIndex(plans, step.planID);
            k < |plans| && FindStep(plans[k].steps, step.stepID).None? ==>
              LiveSum(WriteStep(plans, step, b), e, b) == LiveSum(plans, e, b)
  {
    var k := WriteStepIs(plans, step, b);
    if k < |plans| && FindStep(plans[k].steps, step.stepID).Some? {
      var i := FindStep(plans[k].steps, step.stepID).value;
      var stored := AnnotateStep(step, plans[k].planID);
      if e <= k {
        OverwriteLive(plans, e, k, i, stored, b);
      } else {
        LiveUntouched(plans, e, k, WithSteps(plans[k], plans[k].steps[i := stored], b), b);
      }
    }
  }

  /** A step kept in its own plan: its next state takes its place. */
  lemma HomeWrite(plans: seq<Plan>, k: nat, i: nat, after: Step, b: Budgets)
    requires k < |plans| && WellStoredPlan(plans[k], k + 1) && i < |plans[k].steps| && Succeeds(plans[k].steps[i], after)
    requires PlanIndex(plans, after.planID) == k
    ensures WriteStep(plans, after, b) == plans[k := WithSteps(plans[k], plans[k].steps[i := after], b)]
  {
    FindIsAt(plans[k].steps, i);
    var m := WriteStepIs(plans, after, b);
  }

  lemma HomeLive(plans: seq<Plan>, e: nat, f: nat, k: nat, i: nat, after: Step, b: Budgets)
    requires k < |plans| && WellStoredPlan(plans[k], k + 1) && i < |plans[k].steps| && Succeeds(plans[k].steps[i], after)
    requires PlanIndex(plans, after.planID) == k && e <= k && e <= f <= |plans|
    ensures LiveSum(WriteStep(plans, after, b), f, b) + Remaining(plans[k].steps[i], b) <= LiveSum(plans, e, b) + Remaining(after, b)
  {
    HomeWrite(plans, k, i, after, b);
    OverwriteLive(plans, e, k, i, after, b);
    LiveDrops(WriteStep(plans, after, b), e, f, b);
  }

  /** A step of plan `e` that is kept in a later plan: its result goes there, and plan `e` is left behind. */
  lemma AstrayLive(plans: seq<Plan>, e: nat, i: nat, after: Step, b: Budgets)
    requires e < |plans| && i < |plans[e].steps| && e < PlanIndex(plans, after.planID) < |plans|
    ensures var m := PlanIndex(plans, after.planID);
            && LiveSum(WriteStep(plans, after, b), m, b) + Remaining(plans[e].steps[i], b) <= LiveSum(plans, e, b) + Remaining(after, b)
            && (FindStep(plans[m].steps, after.stepID).None? ==>
                  LiveSum(WriteStep(plans, after, b), m, b) + Remaining(plans[e].steps[i], b) <= LiveSum(plans, e, b))
  {
    var m := PlanIndex(plans, after.planID);
    LiveDrops(plans, e, m, b);
    StepShare(plans[e].steps, i, b);
    WriteLive(plans, m, after, b);
  }

  // ---- planning ----

  lemma {:induction false} RemainingIgnoresIdentity(steps: seq<Step>, other: seq<Step>, b: Budgets)
    requires |steps| == |other|
    requires forall i :: 0 <= i < |steps| ==> steps[i].onFail == other[i].onFail && steps[i].attempt == other[i].attempt
    ensures RemainingSteps(steps, b) == RemainingSteps(other, b)
  {
    if steps != [] {
      RemainingIgnoresIdentity(steps[..|steps|-1], other[..|other|-1], b);
    }
  }

  /** A plan that may be given is stored well, behind the others, with its steps' attempts. */
  lemma CreatePlanEffect(plans: seq<Plan>, steps: seq<Step>, e: nat, b: Budgets)
    requires WellStoredFrom(plans, e) && GoodPlan(steps, |plans|)
    ensures WellStoredFrom(CreatePlan(plans, steps), e)
    ensures HasPlan(CreatePlan(plans, steps)) && Revision(CreatePlan(plans, steps)) == Revision(plans) + 1
    ensures RemainingSteps(CreatePlan(plans, steps)[|plans|].steps, b) == RemainingSteps(steps, b)
  {
    var more := CreatePlan(plans, steps);
    RemainingIgnoresIdentity(steps, more[|plans|].steps, b);
    forall k | e <= k < |more| ensures WellStoredPlan(more[k], k + 1) {
      if k < |plans| {
        assert more[k] == plans[k];
      }
    }
  }

  lemma AppendLive(plans: seq<Plan>, p: Plan, f: nat, b: Budgets)
    requires f <= |plans|
    ensures LiveSum(plans + [p], f, b) == LiveSum(plans, f, b) + RemainingSteps(p.steps, b)
  {
    var live := (plans + [p])[f..];
    assert live == plans[f..] + [p] && live[..|live|-1] == plans[f..];
  }

  lemma CreatePlanLive(plans: seq<Plan>, steps: seq<Step>, e: nat, f: nat, b: Budgets)
    requires GoodPlan(steps, |plans|) && e <= f <= |plans|
    ensures LiveSum(CreatePlan(plans, steps), f, b) <= LiveSum(plans, e, b) + RemainingSteps(steps, b)
  {
    var more := CreatePlan(plans, steps);
    assert more == plans + [more[|plans|]];
    AppendLive(plans, more[|plans|], f, b);
    RemainingIgnoresIdentity(steps, more[|plans|].steps, b);
    LiveDrops(plans, e, f, b);
  }

  /** A planned step starts unused: it has at most the allowed attempts before it. */
  lemma {:induction false} PlannedCost(steps: seq<Step>, b: Budgets)
    requires b.maxRetriesPerStep > 0
    requires forall i :: 0 <= i < |steps| ==> steps[i].attempt >= 0
    ensures RemainingSteps(steps, b) <= |steps| * (b.maxRetriesPerStep + 1)
  {
    if steps != [] {
      var front := steps[..|steps|-1];
      PlannedCost(front, b);
      assert Remaining(steps[|steps|-1], b) <= b.maxRetriesPerStep + 1;
      assert |steps| * (b.maxRetriesPerStep + 1) == |front| * (b.maxRetriesPerStep + 1) + (b.maxRetriesPerStep + 1);
    }
  }

  // ---- what a turn may do to the books ----

  /** The step an awaited record resumes is one a live plan holds. */
  ghost predicate Stands(plans: seq<Plan>, e: nat, s: Step) {
    e <= PlanIndex(plans, s.planID) < |plans| && s in plans[PlanIndex(plans, s.planID)].steps
  }

  /** What an awaited approval can still cost beyond the attempts of the live plans. */
  ghost function Due(w: World, b: Budgets): nat {
    if w.session.pendingApproval.None? || w.session.pendingApproval.value >= |w.approvals| then 0
    else
      var s := AnnotateStep(w.approvals[w.session.pendingApproval.value].step, w.session.planRef);
      if Stands(w.plans, PinnedAt(w), s) then 0 else Remaining(s, b)
  }

  ghost function Outstanding(w: World, b: Budgets): nat {
    LiveSum(w.plans, PinnedAt(w), b) + Due(w, b)
  }

  /** `w` became `v` without a new plan, paying for every tool invocation with an attempt. */
  ghost predicate Pays(w: World, v: World, b: Budgets) {
    && Ready(v) && Revision(v.plans) == Revision(w.plans) && |w.log| <= |v.log|
    && |v.log| + Outstanding(v, b) <= |w.log| + Outstanding(w, b)
  }

  /** `w` became `v` with one more plan, which the budgets allowed. */
  ghost predicate Replans(w: World, v: World, b: Budgets, a: Answers) {
    && Ready(v) && HasPlan(v.plans) && |v.plans| == |w.plans| + 1 && Revision(v.plans) == Revision(w.plans) + 1
    && MayPlan(Revision(w.plans), b) && |w.log| <= |v.log|
    && |v.log| + Outstanding(v, b) <= |w.log| + Outstanding(w, b) + RemainingSteps(PlannedSteps(b, a), b)
  }

  /** Step `i` of plan `k` is what the selector may hand out: of the latest plan, or of the one pinned by an id. */
  ghost predicate Selectable(w: World, k: nat, i: nat) {
    && HasPlan(w.plans) && k < |w.plans| && i < |w.plans[k].steps| && PinnedAt(w) <= k
    && (k == |w.plans| - 1
        || (k == PinnedAt(w) && w.plans[k].steps[i].stepID != "" && (w.session.currentStep != "" || w.session.inFlightStep != "")))
  }

  /** Work never takes the session back to an earlier plan, and follows a step that is kept elsewhere. */
  ghost predicate MovesOn(w: World, v: World, k: nat, i: nat)
    requires Selectable(w, k, i)
  {
    && |v.plans| == |w.plans| && PinnedAt(w) <= PinnedAt(v) < |v.plans|
    && (PlanIndex(w.plans, w.plans[k].steps[i].planID) != k ==>
          PinnedAt(v) == PlanIndex(w.plans, w.plans[k].steps[i].planID))
  }

  lemma RefNotEarlier(s: Session, plans: seq<Plan>, id: string)
    requires WellStoredFrom(plans, PlanIndex(plans, s.planRef))
    ensures StepRef(s, plans, id).Some? ==> PlanIndex(plans, StepRef(s, plans, id).value) >= PlanIndex(plans, s.planRef)
  {
    if HasPlan(plans) {
      assert WellStoredPlan(plans[|plans|-1], |plans|);
    }
    if PlanIndex(plans, s.planRef) < |plans| {
      assert WellStoredPlan(plans[PlanIndex(plans, s.planRef)], PlanIndex(plans, s.planRef) + 1);
    }
  }

  lemma ExecutionMovesOn(w: World, v: World, k: nat, i: nat, now: int)
    requires WellStoredFrom(w.plans, PinnedAt(w)) && Selectable(w, k, i) && |v.plans| == |w.plans| && HasPlan(v.plans)
    requires v.session.planRef == MarkInFlight(w.session, w.plans, w.plans[k].steps[i].stepID, now).planRef
    ensures MovesOn(w, v, k, i)
  {
    var id := w.plans[k].steps[i].stepID;
    RefNotEarlier(w.session, w.plans, id);
    NoneKeptEarlier(w.plans, k, i);
    if PlanIndex(w.plans, w.plans[k].steps[i].planID) != k {
      assert WellStoredPlan(w.plans[k], k + 1);
      FindIsAt(w.plans[k].steps, i);
    }
  }

  lemma NamingMovesOn(w: World, v: World, k: nat, i: nat)
    requires WellStoredFrom(w.plans, PinnedAt(w)) && Selectable(w, k, i) && |v.plans| == |w.plans| && HasPlan(v.plans)
    requires v.session.planRef == w.plans[k].steps[i].planID
    ensures MovesOn(w, v, k, i)
  {
    NoneKeptEarlier(w.plans, k, i);
  }

  /** Storing the next state of a selected step exchanges its share for what it has left. */
  lemma StoreLive(w: World, v: World, k: nat, i: nat, after: Step, b: Budgets)
    requires WellStoredFrom(w.plans, PinnedAt(w)) && Selectable(w, k, i) && Succeeds(w.plans[k].steps[i], after)
    requires v.plans == WriteStep(w.plans, after, b) && MovesOn(w, v, k, i)
    ensures LiveSum(v.plans, PinnedAt(v), b) + Remaining(w.plans[k].steps[i], b)
            <= LiveSum(w.plans, PinnedAt(w), b) + Remaining(after, b)
    ensures var m := PlanIndex(w.plans, after.planID);
            m < |w.plans| && m != k && FindStep(w.plans[m].steps, after.stepID).None? ==>
              LiveSum(v.plans, PinnedAt(v), b) + Remaining(w.plans[k].steps[i], b) <= LiveSum(w.plans, PinnedAt(w), b)
  {
    NoneKeptEarlier(w.plans, k, i);
    if PlanIndex(w.plans, after.planID) == k {
      HomeLive(w.plans, PinnedAt(w), PinnedAt(v), k, i, after, b);
    } else {
      LatestOrPinned(w, k, i);
      AstrayLive(w.plans, k, i, after, b);
    }
  }

  lemma LatestOrPinned(w: World, k: nat, i: nat)
    requires WellStoredFrom(w.plans, PinnedAt(w)) && Selectable(w, k, i)
    ensures PlanIndex(w.plans, w.plans[k].steps[i].planID) != k ==> k == PinnedAt(w)
  {
    if k == |w.plans| - 1 {
      LatestIsHome(w.plans, i);
    }
  }

  /** Running or refusing a selected step leaves nothing awaited and pays with the attempt it spends. */
  lemma SpendPays(w: World, v: World, k: nat, i: nat, after: Step, b: Budgets)
    requires WellStoredFrom(w.plans, PinnedAt(w)) && Selectable(w, k, i) && Succeeds(w.plans[k].steps[i], after)
    requires v.plans == WriteStep(w.plans, after, b) && MovesOn(w, v, k, i)
    requires after.attempt == w.plans[k].steps[i].attempt + 1 && !Exhausted(w.plans[k].steps[i], b)
    requires |w.log| <= |v.log| <= |w.log| + 1 && v.session.pendingApproval.None?
    ensures Pays(w, v, b) && Outstanding(v, b) < Outstanding(w, b)
  {
    StoreLive(w, v, k, i, after, b);
    RemainingAfter(w.plans[k].steps[i], after, b);
    WriteKeepsStored(w.plans, PinnedAt(w), after, b);
    WriteKeepsOwners(w.plans, after, b);
  }

  /** What an invocation leaves, told apart from how it is computed. */
  ghost predicate Executed(w: World, v: World, step: Step, after: Step, b: Budgets, now: int) {
    && Succeeds(step, after) && after.attempt == step.attempt + 1
    && v.plans == WriteStep(w.plans, after, b) && |v.log| == |w.log| + 1
    && v.session.planRef == MarkInFlight(w.session, w.plans, step.stepID, now).planRef
  }

  lemma ExecutionIs(w: World, step: Step, basis: Basis, b: Budgets, a: Answers) returns (after: Step)
    requires w.session.pendingApproval.None? || basis == ByApproval(w.session.pendingApproval.value)
    ensures Executed(w, ExecuteStep(w, step, basis, b, a), step, after, b, a.now)
    ensures ExecuteStep(w, step, basis, b, a).session.pendingApproval.None?
  {
    var ran := Ran(w, step, b, a);
    after := WithBackoff(ran, PhaseAfter(Latest(w.plans), ran, ran.status.Completed?, b), a.now);
  }

  lemma ExecutedPays(w: World, v: World, k: nat, i: nat, after: Step, b: Budgets, now: int)
    requires WellStoredFrom(w.plans, PinnedAt(w)) && Selectable(w, k, i) && !Exhausted(w.plans[k].steps[i], b)
    requires Executed(w, v, w.plans[k].steps[i], after, b, now) && v.session.pendingApproval.None?
    ensures Pays(w, v, b) && Outstanding(v, b) < Outstanding(w, b)
  {
    WriteKeepsOwners(w.plans, after, b);
    ExecutionMovesOn(w, v, k, i, now);
    SpendPays(w, v, k, i, after, b);
  }

  lemma ExecutePays(w: World, k: nat, i: nat, basis: Basis, b: Budgets, a: Answers)
    requires WellStoredFrom(w.plans, PinnedAt(w)) && Selectable(w, k, i) && !Exhausted(w.plans[k].steps[i], b)
    requires w.session.pendingApproval.None?
    ensures var v := ExecuteStep(w, w.plans[k].steps[i], basis, b, a);
            Pays(w, v, b) && Outstanding(v, b) < Outstanding(w, b)
  {
    var after := ExecutionIs(w, w.plans[k].steps[i], basis, b, a);
    ExecutedPays(w, ExecuteStep(w, w.plans[k].steps[i], basis, b, a), k, i, after, b, a.now);
  }

  lemma RefusedPays(w: World, v: World, k: nat, i: nat, after: Step, b: Budgets)
    requires WellStoredFrom(w.plans, PinnedAt(w)) && Selectable(w, k, i) && !Exhausted(w.plans[k].steps[i], b)
    requires Succeeds(w.plans[k].steps[i], after) && after.attempt == w.plans[k].steps[i].attempt + 1
    requires v.plans == WriteStep(w.plans, after, b) && v.log == w.log
    requires v.session.planRef == w.plans[k].steps[i].planID && v.session.pendingApproval.None?
    ensures Pays(w, v, b)
  {
    WriteKeepsOwners(w.plans, after, b);
    NamingMovesOn(w, v, k, i);
    SpendPays(w, v, k, i, after, b);
  }

  lemma DenyPays(w: World, k: nat, i: nat, b: Budgets)
    requires WellStoredFrom(w.plans, PinnedAt(w)) && Selectable(w, k, i) && !Exhausted(w.plans[k].steps[i], b)
    requires w.session.pendingApproval.None?
    ensures Pays(w, DenyStep(w, w.plans[k].steps[i], b), b)
  {
    var step := w.plans[k].steps[i];
    NoneKeptEarlier(w.plans, k, i);
    RefusedPays(w, DenyStep(w, step, b), k, i, step.(attempt := step.attempt + 1, status := Failed), b);
  }

  /** A parked step stands in the plan it is kept in, unless that plan does not know it. */
  lemma ParkedStands(w: World, v: World, k: nat, i: nat, parked: Step, b: Budgets)
    requires WellStoredFrom(w.plans, PinnedAt(w)) && Selectable(w, k, i) && Succeeds(w.plans[k].steps[i], parked)
    requires v.plans == WriteStep(w.plans, parked, b) && v.session.planRef == parked.planID
    ensures var m := PlanIndex(w.plans, parked.planID);
            m < |w.plans| && (m == k || FindStep(w.plans[m].steps, parked.stepID).Some? ==> Stands(v.plans, PinnedAt(v), parked))
  {
    NoneKeptEarlier(w.plans, k, i);
    var m := WriteStepIs(w.plans, parked, b);
    if m == k {
      assert WellStoredPlan(w.plans[k], k + 1);
      FindIsAt(w.plans[k].steps, i);
    }
    match FindStep(w.plans[m].steps, parked.stepID)
    case None =>
    case Some(j) => assert v.plans[m].steps[j] == parked;
  }

  lemma ParkedPays(w: World, v: World, k: nat, i: nat, parked: Step, b: Budgets)
    requires WellStoredFrom(w.plans, PinnedAt(w)) && Selectable(w, k, i) && w.session.pendingApproval.None?
    requires parked == w.plans[k].steps[i].(status := Blocked)
    requires v.plans == WriteStep(w.plans, parked, b) && v.log == w.log && v.session.planRef == parked.planID
    requires v.session.pendingApproval == Some(|w.approvals|) && |v.approvals| == |w.approvals| + 1
    requires v.approvals[|w.approvals|].step == parked && v.approvals[|w.approvals|].status.ApprovalPending?
    ensures Pays(w, v, b)
  {
    WriteKeepsOwners(w.plans, parked, b);
    NoneKeptEarlier(w.plans, k, i);
    NamingMovesOn(w, v, k, i);
    StoreLive(w, v, k, i, parked, b);
    ParkedStands(w, v, k, i, parked, b);
    WriteKeepsStored(w.plans, PinnedAt(w), parked, b);
  }

  lemma AskPays(w: World, k: nat, i: nat, b: Budgets, a: Answers)
    requires WellStoredFrom(w.plans, PinnedAt(w)) && Selectable(w, k, i) && w.session.pendingApproval.None?
    ensures Pays(w, AskFor(w, w.plans[k].steps[i], b, a), b)
    ensures AskFor(w, w.plans[k].steps[i], b, a).session.pendingApproval.Some?
  {
    var step := w.plans[k].steps[i];
    NoneKeptEarlier(w.plans, k, i);
    ParkedPays(w, AskFor(w, step, b, a), k, i, step.(status := Blocked), b);
  }

  lemma RunStepPays(w: World, k: nat, i: nat, b: Budgets, a: Answers)
    requires WellStoredFrom(w.plans, PinnedAt(w)) && Selectable(w, k, i) && w.session.pendingApproval.None?
    ensures var r := RunStepWithDecision(w, w.plans[k].steps[i], None, b, a);
            r.Ok? ==> Pays(w, r.value, b) && (AfterWork(r.value).Again? ==> Outstanding(r.value, b) < Outstanding(w, b))
  {
    var step := w.plans[k].steps[i];
    NoneKeptEarlier(w.plans, k, i);
    if StepGuard(w.session, b, step, None, a).None? {
      match DecisionFor(w.approvals, step, None, a)
      case (Ask, _) => AskPays(w, k, i, b, a);
      case (Deny, _) => DenyPays(w, k, i, b);
      case (Allow, basis) => ExecutePays(w, k, i, basis, b, a);
    }
  }

  // ---- resuming an approved step ----

  /** The live plans and what is due cover the step of an awaited record, wherever its result goes. */
  lemma ResumeLive(w: World, s: Step, after: Step, f: nat, b: Budgets)
    requires WellStoredFrom(w.plans, PinnedAt(w)) && Succeeds(s, after) && PinnedAt(w) <= f <= |w.plans|
    ensures var due := if Stands(w.plans, PinnedAt(w), s) then 0 else Remaining(s, b);
            LiveSum(WriteStep(w.plans, after, b), f, b) + Remaining(s, b) <= LiveSum(w.plans, PinnedAt(w), b) + due + Remaining(after, b)
  {
    var e := PinnedAt(w);
    if Stands(w.plans, e, s) {
      var m := PlanIndex(w.plans, s.planID);
      var i :| 0 <= i < |w.plans[m].steps| && w.plans[m].steps[i] == s;
      HomeLive(w.plans, e, f, m, i, after, b);
    } else {
      WriteLive(w.plans, e, after, b);
      LiveDrops(WriteStep(w.plans, after, b), e, f, b);
    }
  }

  lemma ExecutionNotEarlier(w: World, v: World, id: string, now: int)
    requires WellStoredFrom(w.plans, PinnedAt(w)) && |v.plans| == |w.plans| && HasPlan(v.plans) == HasPlan(w.plans)
    requires v.session.planRef == MarkInFlight(w.session, w.plans, id, now).planRef
    ensures PinnedAt(v) >= PinnedAt(w)
  {
    RefNotEarlier(w.session, w.plans, id);
  }

  lemma ResumedPays(w: World, v: World, s: Step, after: Step, id: nat, b: Budgets, now: int)
    requires WellStoredFrom(w.plans, PinnedAt(w)) && w.session.pendingApproval == Some(id) && id < |w.approvals|
    requires s == AnnotateStep(w.approvals[id].step, w.session.planRef) && !Exhausted(s, b)
    requires Executed(w, v, s, after, b, now) && v.session.pendingApproval.None?
    ensures Pays(w, v, b) && Outstanding(v, b) < Outstanding(w, b)
  {
    RemainingAfter(s, after, b);
    WriteKeepsOwners(w.plans, after, b);
    WriteKeepsStored(w.plans, PinnedAt(w), after, b);
    ExecutionNotEarlier(w, v, s.stepID, now);
    ResumeLive(w, s, after, PinnedAt(v), b);
  }

  /** Resuming the awaited record pays for its invocation with what is live or due. */
  lemma ResumePays(w: World, id: nat, b: Budgets, a: Answers)
    requires WellStoredFrom(w.plans, PinnedAt(w)) && w.session.pendingApproval == Some(id) && id < |w.approvals|
    ensures var r := RunStepWithDecision(w, w.approvals[id].step, Some(Grant(id, Allow)), b, a);
            r.Ok? ==> Pays(w, r.value, b) && Outstanding(r.value, b) < Outstanding(w, b)
  {
    var s := AnnotateStep(w.approvals[id].step, w.session.planRef);
    if StepGuard(w.session, b, s, Some(Grant(id, Allow)), a).None? {
      var after := ExecutionIs(w, s, ByApproval(id), b, a);
      ResumedPays(w, ExecuteStep(w, s, ByApproval(id), b, a), s, after, id, b, a.now);
    }
  }

  // ---- fan-out rounds ----

  /** `r` is the next state of one of the steps, an attempt later. */
  ghost predicate SpendsAt(steps: seq<Step>, i: nat, r: Step, b: Budgets) {
    i < |steps| && Succeeds(steps[i], r) && r.attempt == steps[i].attempt + 1 && !Exhausted(steps[i], b)
  }

  ghost predicate Spends(steps: seq<Step>, r: Step, b: Budgets) {
    exists i: nat :: SpendsAt(steps, i, r, b)
  }

  /** Every replacement has spent one attempt of the step it replaces. */
  ghost predicate SpendsEach(steps: seq<Step>, replacements: seq<Step>, b: Budgets) {
    && DistinctIDs(steps) && DistinctIDs(replacements)
    && forall k :: 0 <= k < |replacements| ==> Spends(steps, replacements[k], b)
  }

  lemma {:induction false} FoldKeepsOthers(steps: seq<Step>, replacements: seq<Step>, i: nat)
    requires i < |steps| && forall k :: 0 <= k < |replacements| ==> replacements[k].stepID != steps[i].stepID
    ensures FoldReplace(steps, replacements)[i] == steps[i]
  {
    if replacements != [] {
      FoldKeepsOthers(steps, replacements[..|replacements|-1], i);
    }
  }

  lemma ReplaceSpends(steps: seq<Step>, i: nat, last: Step, b: Budgets)
    requires DistinctIDs(steps) && SpendsAt(steps, i, last, b)
    ensures ReplaceStep(steps, last) == steps[i := last]
    ensures RemainingSteps(ReplaceStep(steps, last), b) + 1 == RemainingSteps(steps, b)
  {
    assert FindStep(steps, last.stepID) == Some(i);
    RemainingStepsUpdate(steps, i, last, b);
    RemainingAfter(steps[i], last, b);
  }

  lemma {:induction false} FoldSpends(steps: seq<Step>, replacements: seq<Step>, b: Budgets)
    requires SpendsEach(steps, replacements, b)
    ensures RemainingSteps(FoldReplace(steps, replacements), b) + |replacements| == RemainingSteps(steps, b)
  {
    if replacements != [] {
      var n := |replacements| - 1;
      var i := LastSpends(steps, replacements, b);
      FoldSpends(steps, replacements[..n], b);
      FoldKeepsOthers(steps, replacements[..n], i);
      ReplaceSpends(FoldReplace(steps, replacements[..n]), i, replacements[n], b);
    }
  }

  /** The last replacement spends an attempt of a step none of the others touches. */
  lemma LastSpends(steps: seq<Step>, replacements: seq<Step>, b: Budgets) returns (i: nat)
    requires SpendsEach(steps, replacements, b) && replacements != []
    ensures var n := |replacements| - 1;
            && SpendsEach(steps, replacements[..n], b) && SpendsAt(steps, i, replacements[n], b)
            && forall k :: 0 <= k < n ==> replacements[..n][k].stepID != steps[i].stepID
  {
    var n := |replacements| - 1;
    var front := replacements[..n];
    forall k | 0 <= k < n ensures Spends(steps, front[k], b) {
      assert front[k] == replacements[k];
    }
    assert Spends(steps, replacements[n], b);
    i :| SpendsAt(steps, i, replacements[n], b);
    forall k | 0 <= k < n ensures front[k].stepID != steps[i].stepID {
      assert front[k] == replacements[k];
    }
  }

  lemma {:induction false} RoundStepsDistinct(steps: seq<Step>, selected: Step, b: Budgets, systemNow: int)
    requires DistinctIDs(steps)
    ensures DistinctIDs(RoundSteps(steps, selected, b, systemNow))
  {
    if steps != [] {
      var rest := RoundSteps(steps[1..], selected, b, systemNow);
      RoundStepsDistinct(steps[1..], selected, b, systemNow);
      RoundStepsAre(steps[1..], selected, b, systemNow);
      forall j | 0 <= j < |rest| ensures rest[j].stepID != steps[0].stepID {
        assert rest[j] in rest;
        var k :| 0 <= k < |steps[1..]| && steps[1..][k] == rest[j];
        assert steps[k+1] == rest[j];
      }
    }
  }

  ghost predicate DistinctPrepared(ps: seq<PreparedStep>) {
    forall i, j :: 0 <= i < j < |ps| ==> ps[i].step.stepID != ps[j].step.stepID
  }

  lemma {:induction false} PrepareKeepsDistinct(approvals: seq<Approval>, steps: seq<Step>, b: Budgets, a: Answers)
    requires DistinctIDs(steps)
    ensures var r := PrepareRound(approvals, steps, b, a); r.Prepared? ==> DistinctPrepared(r.steps)
  {
    var r := PrepareRound(approvals, steps, b, a);
    if steps != [] && r.Prepared? {
      PrepareKeepsDistinct(approvals, steps[1..], b, a);
      PreparedWhen(approvals, steps[1..], b, a);
      var rest := PrepareRound(approvals, steps[1..], b, a);
      if rest.Prepared? {
        forall j | 0 <= j < |rest.steps| ensures rest.steps[j].step.stepID != steps[0].stepID {
          assert rest.steps[j] in rest.steps;
          var k :| 0 <= k < |steps[1..]| && steps[1..][k] == rest.steps[j].step;
          assert steps[k+1] == rest.steps[j].step;
        }
      }
    }
  }

  lemma RoundSpends(latest: seq<Step>, ps: seq<PreparedStep>, b: Budgets, a: Answers)
    requires DistinctIDs(latest) && DistinctPrepared(ps)
    requires forall p :: p in ps ==> p.step in latest && !Exhausted(p.step, b)
    ensures SpendsEach(latest, RoundResults(latest, ps, b, a), b)
  {
    var results := RoundResults(latest, ps, b, a);
    forall k | 0 <= k < |results| ensures Spends(latest, results[k], b) {
      assert ps[k] in ps;
      var i :| 0 <= i < |latest| && latest[i] == ps[k].step;
      assert SpendsAt(latest, i, results[k], b);
    }
  }

  /** A round's results name the plan of their steps or none that exists. */
  lemma ReplaceStepsKeepsIdentity(steps: seq<Step>, results: seq<Step>, planID: nat)
    requires forall i :: 0 <= i < |steps| ==> steps[i].planID >= planID
    requires forall i :: 0 <= i < |results| ==> results[i].planID >= planID
    ensures forall i :: 0 <= i < |steps| ==> ReplaceSteps(steps, results)[i].planID >= planID
  {
    forall i | 0 <= i < |steps| ensures ReplaceSteps(steps, results)[i].planID >= planID {
      match FindLast(results, steps[i].stepID)
      case Some(r) => var m :| 0 <= m < |results| && results[m] == r;
      case None =>
    }
  }

  lemma ResultsKeepIdentity(plans: seq<Plan>, results: seq<Step>, b: Budgets)
    requires LatestStored(plans) && SpendsEach(LatestSteps(plans), results, b)
    ensures forall m :: 0 <= m < |results| ==> results[m].planID >= |plans|
  {
    forall m | 0 <= m < |results| ensures results[m].planID >= |plans| {
      assert Spends(LatestSteps(plans), results[m], b);
      var i: nat :| SpendsAt(LatestSteps(plans), i, results[m], b);
    }
  }

  lemma ResultsKept(plans: seq<Plan>, results: seq<Step>, b: Budgets)
    requires LatestStored(plans) && results != [] && SpendsEach(LatestSteps(plans), results, b)
    ensures KeptIn(plans, results, |plans| - 1) && Known(LatestSteps(plans), results)
    ensures forall planID :: AnnotateSteps(results, planID) == results
  {
    ResultsKeepIdentity(plans, results, b);
    assert Spends(LatestSteps(plans), results[0], b);
    var i: nat :| SpendsAt(LatestSteps(plans), i, results[0], b);
    FindIsAt(LatestSteps(plans), i);
    assert FindStep(LatestSteps(plans), results[0].stepID).Some?;
  }

  lemma WriteStepsIs(plans: seq<Plan>, results: seq<Step>, b: Budgets)
    requires LatestStored(plans) && results != [] && SpendsEach(LatestSteps(plans), results, b)
    ensures var k := |plans| - 1;
            WriteSteps(plans, results, b) == plans[k := WithSteps(plans[k], ReplaceSteps(plans[k].steps, results), b)]
  {
    ResultsKept(plans, results, b);
    WriteStepsAre(plans, results, |plans| - 1, b);
  }

  lemma RoundPlanWellStored(plans: seq<Plan>, results: seq<Step>, b: Budgets)
    requires LatestStored(plans) && SpendsEach(LatestSteps(plans), results, b)
    ensures var k := |plans| - 1;
            WellStoredPlan(WithSteps(plans[k], ReplaceSteps(plans[k].steps, results), b), k + 1)
  {
    var k := |plans| - 1;
    ResultsKeepIdentity(plans, results, b);
    ReplaceStepsKeepsIdentity(plans[k].steps, results, k + 1);
  }

  lemma RoundPlanSpends(plans: seq<Plan>, results: seq<Step>, b: Budgets)
    requires HasPlan(plans) && SpendsEach(LatestSteps(plans), results, b)
    ensures var k := |plans| - 1;
            RemainingSteps(WithSteps(plans[k], ReplaceSteps(plans[k].steps, results), b).steps, b) + |results|
            == RemainingSteps(plans[k].steps, b)
  {
    BatchIsFold(LatestSteps(plans), results);
    FoldSpends(LatestSteps(plans), results, b);
  }

  lemma LatestReplaced(plans: seq<Plan>, p: Plan, spent: nat, e: nat, b: Budgets)
    requires WellStoredFrom(plans, e) && e < |plans| && WellStoredPlan(p, |plans|)
    requires RemainingSteps(p.steps, b) + spent == RemainingSteps(plans[|plans|-1].steps, b)
    ensures WellStoredFrom(plans[|plans|-1 := p], e)
    ensures LiveSum(plans[|plans|-1 := p], e, b) + spent == LiveSum(plans, e, b)
  {
    LiveUpdate(plans, e, |plans| - 1, p, b);
  }

  lemma RoundLeaves(w: World, anchor: Step, ps: seq<PreparedStep>, b: Budgets, a: Answers)
    requires |ps| > 1
    ensures var v := ExecuteRound(w, anchor, ps, b, a);
            && v.plans == WriteSteps(w.plans, RoundResults(LatestSteps(w.plans), ps, b, a), b)
            && v.session.planRef == w.session.planRef && v.session.pendingApproval == w.session.pendingApproval
            && v.approvals == w.approvals && v.log == w.log + RoundInvocations(ps)
  {
  }

  lemma LatestPays(w: World, v: World, p: Plan, spent: nat, b: Budgets)
    requires WellStoredFrom(w.plans, PinnedAt(w)) && HasPlan(w.plans) && v.plans == w.plans[|w.plans|-1 := p]
    requires WellStoredPlan(p, |w.plans|) && p.own && p.revision == Revision(w.plans)
    requires RemainingSteps(p.steps, b) + spent == RemainingSteps(w.plans[|w.plans|-1].steps, b)
    requires v.session.planRef == w.session.planRef
    requires w.session.pendingApproval.None? && v.session.pendingApproval.None?
    requires |w.log| <= |v.log| <= |w.log| + spent
    ensures Pays(w, v, b) && (spent > 0 ==> Outstanding(v, b) < Outstanding(w, b))
  {
    LatestReplaced(w.plans, p, spent, PinnedAt(w), b);
  }

  /** The latest plan with a round's results in it: as many attempts fewer as there are results. */
  lemma RoundPlan(plans: seq<Plan>, results: seq<Step>, b: Budgets) returns (p: Plan)
    requires LatestStored(plans) && results != [] && SpendsEach(LatestSteps(plans), results, b)
    ensures WriteSteps(plans, results, b) == plans[|plans|-1 := p]
    ensures WellStoredPlan(p, |plans|) && p.own && p.revision == Revision(plans)
    ensures RemainingSteps(p.steps, b) + |results| == RemainingSteps(plans[|plans|-1].steps, b)
  {
    WriteStepsIs(plans, results, b);
    RoundPlanWellStored(plans, results, b);
    RoundPlanSpends(plans, results, b);
    p := WithSteps(plans[|plans|-1], ReplaceSteps(plans[|plans|-1].steps, results), b);
  }

  /** Storing a round's results in the latest plan pays for as many invocations as there are results. */
  lemma ResultsPay(w: World, v: World, results: seq<Step>, b: Budgets)
    requires WellStoredFrom(w.plans, PinnedAt(w)) && HasPlan(w.plans) && results != []
    requires SpendsEach(LatestSteps(w.plans), results, b) && v.plans == WriteSteps(w.plans, results, b)
    requires v.session.planRef == w.session.planRef
    requires w.session.pendingApproval.None? && v.session.pendingApproval.None?
    requires |w.log| <= |v.log| <= |w.log| + |results|
    ensures Pays(w, v, b) && Outstanding(v, b) < Outstanding(w, b)
  {
    assert WellStoredPlan(w.plans[|w.plans|-1], |w.plans|);
    var p := RoundPlan(w.plans, results, b);
    LatestPays(w, v, p, |results|, b);
  }

  lemma ExecuteRoundPays(w: World, anchor: Step, ps: seq<PreparedStep>, b: Budgets, a: Answers)
    requires WellStoredFrom(w.plans, PinnedAt(w)) && HasPlan(w.plans) && |ps| > 1 && w.session.pendingApproval.None?
    requires DistinctPrepared(ps) && forall p :: p in ps ==> p.step in LatestSteps(w.plans) && !Exhausted(p.step, b)
    ensures Pays(w, ExecuteRound(w, anchor, ps, b, a), b)
    ensures Outstanding(ExecuteRound(w, anchor, ps, b, a), b) < Outstanding(w, b)
  {
    var results := RoundResults(LatestSteps(w.plans), ps, b, a);
    assert WellStoredPlan(w.plans[|w.plans|-1], |w.plans|);
    RoundSpends(LatestSteps(w.plans), ps, b, a);
    RoundLeaves(w, anchor, ps, b, a);
    ResultsPay(w, ExecuteRound(w, anchor, ps, b, a), results, b);
  }

  lemma RoundPrepared(approvals: seq<Approval>, latest: seq<Step>, selected: Step, b: Budgets, a: Answers)
    requires DistinctIDs(latest)
    ensures var r := PrepareRound(approvals, RoundSteps(latest, selected, b, a.systemNow), b, a);
            r.Prepared? ==> DistinctPrepared(r.steps) && forall p :: p in r.steps ==> p.step in latest && !Exhausted(p.step, b)
  {
    RoundStepsDistinct(latest, selected, b, a.systemNow);
    RoundStepsAre(latest, selected, b, a.systemNow);
    PreparedWhen(approvals, RoundSteps(latest, selected, b, a.systemNow), b, a);
    PrepareKeepsDistinct(approvals, RoundSteps(latest, selected, b, a.systemNow), b, a);
  }

  lemma RoundPays(w: World, selected: Step, b: Budgets, a: Answers)
    requires WellStoredFrom(w.plans, PinnedAt(w)) && HasPlan(w.plans)
    ensures var r := TryFanoutRound(w, selected, b, a);
            r.RoundDone? ==> Pays(w, r.world, b) && Outstanding(r.world, b) < Outstanding(w, b)
  {
    if TryFanoutRound(w, selected, b, a).RoundDone? {
      assert WellStoredPlan(w.plans[|w.plans|-1], |w.plans|);
      var ps := RoundDoneIs(w, selected, b, a);
      RoundPrepared(w.approvals, LatestSteps(w.plans), selected, b, a);
      ExecuteRoundPays(w, selected, ps, b, a);
    }
  }

  // ---- a whole turn ----

  lemma PlanningReplans(w: World, b: Budgets, a: Answers)
    requires Ready(w) && w.session.pendingApproval.None? && GoodAnswer(|w.plans|, Revision(w.plans), b, a)
    ensures var (v, fault) := CreatePlanFromPlanner(w, b, a);
            && v.session.pendingApproval.None?
            && if fault.None? then Replans(w, v, b, a) && v.log == w.log else Pays(w, v, b)
  {
    var (v, fault) := CreatePlanFromPlanner(w, b, a);
    if fault.None? {
      PlannedLive(w, v, b, a);
    }
  }

  lemma PlannedLive(w: World, v: World, b: Budgets, a: Answers)
    requires Ready(w) && w.session.pendingApproval.None? && GoodPlan(PlannedSteps(b, a), |w.plans|)
    requires v.plans == CreatePlan(w.plans, PlannedSteps(b, a)) && v.session.planRef == w.session.planRef
    requires v.session.pendingApproval.None?
    ensures Ready(v) && Outstanding(v, b) <= Outstanding(w, b) + RemainingSteps(PlannedSteps(b, a), b)
  {
    var steps := PlannedSteps(b, a);
    CreatePlanEffect(w.plans, steps, PinnedAt(w), b);
    CreatePlanLive(w.plans, steps, PinnedAt(w), PinnedAt(v), b);
  }

  /** What the selector hands out can be run: it is a step of the latest plan or of the one the session is pinned to. */
  lemma SelectedIsSelectable(w: World, b: Budgets) returns (k: nat, i: nat)
    requires HasPlan(w.plans)
    requires SelectNextStep(w.session.currentStep, w.session.inFlightStep, PinnedSteps(w), LatestSteps(w.plans), b).RunStep?
    ensures Selectable(w, k, i)
    ensures SelectNextStep(w.session.currentStep, w.session.inFlightStep, PinnedSteps(w), LatestSteps(w.plans), b).step
            == w.plans[k].steps[i]
  {
    var pinned := PinnedStep(w.session.currentStep, w.session.inFlightStep, PinnedSteps(w), b);
    var step := SelectNextStep(w.session.currentStep, w.session.inFlightStep, PinnedSteps(w), LatestSteps(w.plans), b).step;
    if pinned.Some? && PinnedSteps(w) == w.plans[PinnedAt(w)].steps {
      k := PinnedAt(w);
    } else {
      k := |w.plans| - 1;
    }
    i :| 0 <= i < |w.plans[k].steps| && w.plans[k].steps[i] == step;
  }

  /** The next turn, if there is one, has less left to spend. */
  ghost predicate Advances(w: World, t: Turn, b: Budgets, a: Answers) {
    || Replans(w, t.world, b, a)
    || (Pays(w, t.world, b) && (t.Again? ==> Outstanding(t.world, b) < Outstanding(w, b)))
  }

  lemma RunSelectedPays(w: World, k: nat, i: nat, b: Budgets, a: Answers)
    requires WellStoredFrom(w.plans, PinnedAt(w)) && Selectable(w, k, i) && w.session.pendingApproval.None?
    ensures var t := RunSelected(w, w.plans[k].steps[i], b, a);
            Pays(w, t.world, b) && (t.Again? ==> Outstanding(t.world, b) < Outstanding(w, b))
  {
    RoundPays(w, w.plans[k].steps[i], b, a);
    RunStepPays(w, k, i, b, a);
  }

  lemma WorkAdvances(w: World, b: Budgets, a: Answers)
    requires Ready(w) && HasPlan(w.plans) && GoodAnswer(|w.plans|, Revision(w.plans), b, a) && w.session.pendingApproval.None?
    ensures Advances(w, WorkOnPlan(w, b, a), b, a)
  {
    match SelectNextStep(w.session.currentStep, w.session.inFlightStep, PinnedSteps(w), LatestSteps(w.plans), b)
    case NeedsPlanning => PlanningReplans(w, b, a);
    case NothingToRun =>
    case RunStep(step) =>
      var k, i := SelectedIsSelectable(w, b);
      RunSelectedPays(w, k, i, b, a);
  }
}

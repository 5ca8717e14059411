/** The phase a session moves to and the status its plan is stored with are computed apart. They agree. */
module Reconcile {
  import opened PlanModel
  import opened Aggregates
  import opened PlanOutcome
  import opened StepSelection
  import opened SessionKernel
  import opened DriverBudget

  /** All of a step that a verdict looks at. */
  predicate Alike(s: Step, t: Step) {
    s.status == t.status && s.attempt == t.attempt && s.onFail == t.onFail && s.metadata.aggregateID == t.metadata.aggregateID
  }

  ghost predicate AllAlike(steps: seq<Step>, other: seq<Step>) {
    |steps| == |other| && forall i :: 0 <= i < |steps| ==> Alike(steps[i], other[i])
  }

  lemma Counterpart(steps: seq<Step>, other: seq<Step>, t: Step) returns (s: Step)
    requires AllAlike(steps, other) && t in other
    ensures s in steps && Alike(s, t)
  {
    var i :| 0 <= i < |other| && other[i] == t;
    s := steps[i];
  }

  lemma AllFailedCarriesOver(steps: seq<Step>, other: seq<Step>, id: string)
    requires AllAlike(steps, other) && AllMembersFailed(steps, id)
    ensures AllMembersFailed(other, id)
  {
    forall t | t in other && MemberOf(t, id) ensures t.status.Failed? {
      var s := Counterpart(steps, other, t);
    }
  }

  lemma LostCarriesOver(steps: seq<Step>, other: seq<Step>, id: string, b: Budgets)
    requires AllAlike(steps, other) && AggregateLost(steps, id, b)
    ensures AggregateLost(other, id, b)
  {
    var s0 :| s0 in steps && MemberOf(s0, id);
    var t0 := Counterpart(other, steps, s0);
    forall t | t in other && MemberOf(t, id) ensures t.status.Failed? && Exhausted(t, b) {
      var s := Counterpart(steps, other, t);
    }
  }

  lemma OpenCarriesOver(steps: seq<Step>, other: seq<Step>, id: string)
    requires AllAlike(steps, other) && SomeMemberOpen(steps, id)
    ensures SomeMemberOpen(other, id)
  {
    var s :| s in steps && MemberOf(s, id) && !s.status.Failed? && !s.status.Completed?;
    var t := Counterpart(other, steps, s);
  }

  lemma MembersCarryOver(steps: seq<Step>, other: seq<Step>, id: string, b: Budgets)
    requires AllAlike(steps, other)
    ensures AggregateLost(steps, id, b) == AggregateLost(other, id, b)
    ensures AllMembersFailed(steps, id) == AllMembersFailed(other, id)
    ensures SomeMemberOpen(steps, id) == SomeMemberOpen(other, id)
  {
    if AggregateLost(steps, id, b) { LostCarriesOver(steps, other, id, b); }
    if AggregateLost(other, id, b) { LostCarriesOver(other, steps, id, b); }
    if AllMembersFailed(steps, id) { AllFailedCarriesOver(steps, other, id); }
    if AllMembersFailed(other, id) { AllFailedCarriesOver(other, steps, id); }
    if SomeMemberOpen(steps, id) { OpenCarriesOver(steps, other, id); }
    if SomeMemberOpen(other, id) { OpenCarriesOver(other, steps, id); }
  }

  lemma AlikeReads(s: Step, t: Step, b: Budgets)
    requires Alike(s, t)
    ensures NormalizedOnFailStrategy(s) == NormalizedOnFailStrategy(t) && Exhausted(s, b) == Exhausted(t, b)
    ensures Tagged(s) == Tagged(t) && Unfinished(s) == Unfinished(t) && Spent(s, b) == Spent(t, b)
  {
  }

  lemma DoomCarriesOver(steps: seq<Step>, other: seq<Step>, s: Step, t: Step, b: Budgets)
    requires AllAlike(steps, other) && Alike(s, t) && DoomsPlan(steps, s, b)
    ensures DoomsPlan(other, t, b)
  {
    AlikeReads(s, t, b);
    MembersCarryOver(steps, other, s.metadata.aggregateID, b);
  }

  lemma PendingCarriesOver(steps: seq<Step>, other: seq<Step>, s: Step, t: Step, b: Budgets)
    requires AllAlike(steps, other) && Alike(s, t) && KeepsPending(steps, s, b)
    ensures KeepsPending(other, t, b)
  {
    AlikeReads(s, t, b);
    MembersCarryOver(steps, other, s.metadata.aggregateID, b);
  }

  lemma RecoverableCarriesOver(steps: seq<Step>, other: seq<Step>, s: Step, t: Step, b: Budgets)
    requires AllAlike(steps, other) && Alike(s, t) && KeepsRecoverable(steps, s, b)
    ensures KeepsRecoverable(other, t, b)
  {
    AlikeReads(s, t, b);
    MembersCarryOver(steps, other, s.metadata.aggregateID, b);
  }

  lemma StepsCarryOver(steps: seq<Step>, other: seq<Step>, b: Budgets)
    requires AllAlike(steps, other)
    ensures MustGiveUp(steps, b) ==> MustGiveUp(other, b)
    ensures HasOpenWork(steps, b) ==> HasOpenWork(other, b)
  {
    if MustGiveUp(steps, b) {
      var s :| s in steps && DoomsPlan(steps, s, b);
      var t := Counterpart(other, steps, s);
      DoomCarriesOver(steps, other, s, t, b);
    }
    if HasOpenWork(steps, b) {
      var s :| s in steps && (KeepsPending(steps, s, b) || KeepsRecoverable(steps, s, b));
      var t := Counterpart(other, steps, s);
      if KeepsPending(steps, s, b) {
        PendingCarriesOver(steps, other, s, t, b);
      } else {
        RecoverableCarriesOver(steps, other, s, t, b);
      }
    }
  }

  /** The verdict looks at status, attempts, failure rules and aggregate only: not, say, at when a step may be retried. */
  lemma VerdictIsAboutLikeness(steps: seq<Step>, other: seq<Step>, b: Budgets)
    requires AllAlike(steps, other)
    ensures VerdictOf(steps, b) == VerdictOf(other, b)
  {
    StepsCarryOver(steps, other, b);
    StepsCarryOver(other, steps, b);
  }

  predicate Agree(phase: Phase, status: PlanStatus) {
    match status
    case PlanCompleted => phase.Complete?
    case PlanFailed => phase.PhaseFailed?
    case Active => phase.Planning?
  }

  /** The status a step's plan is stored with is that of the verdict on the plan with the step as it ran. */
  lemma StoredStatus(plans: seq<Plan>, k: nat, i: nat, ran: Step, stored: Step, b: Budgets)
    requires k < |plans| && WellStoredPlan(plans[k], k + 1) && i < |plans[k].steps| && PlanIndex(plans, stored.planID) == k
    requires Succeeds(plans[k].steps[i], ran) && Succeeds(plans[k].steps[i], stored) && Alike(ran, stored)
    ensures ReplaceStep(plans[k].steps, ran) == plans[k].steps[i := ran]
    ensures var after := WriteStep(plans, stored, b);
            |after| == |plans| && after[k].status == PlanStatusFor(VerdictOf(plans[k].steps[i := ran], b))
  {
    FindIsAt(plans[k].steps, i);
    HomeWrite(plans, k, i, stored, b);
    VerdictIsAboutLikeness(plans[k].steps[i := ran], plans[k].steps[i := stored], b);
  }

  lemma ExecutionLeaves(w: World, step: Step, basis: Basis, b: Budgets, a: Answers) returns (ran: Step, stored: Step)
    requires HasPlan(w.plans)
    ensures ran == Ran(w, step, b, a) && Succeeds(step, ran) && Succeeds(step, stored) && Alike(ran, stored)
    ensures var v := ExecuteStep(w, step, basis, b, a);
            v.plans == WriteStep(w.plans, stored, b)
            && (Reconciles(ran, ran.status.Completed?, b) ==>
                  v.session.phase == PhaseForVerdict(VerdictOf(ReplaceStep(LatestSteps(w.plans), ran), b)))
  {
    ran := Ran(w, step, b, a);
    stored := WithBackoff(ran, PhaseAfter(Latest(w.plans), ran, ran.status.Completed?, b), a.now);
  }

  ghost predicate Reconciled(w: World, step: Step, b: Budgets, a: Answers) {
    Reconciles(Ran(w, step, b, a), Ran(w, step, b, a).status.Completed?, b)
  }

  /** After the step ran, the session's phase says the same as the status plan `k` is stored with. */
  ghost predicate AgreesAfter(w: World, k: nat, step: Step, basis: Basis, b: Budgets, a: Answers) {
    var v := ExecuteStep(w, step, basis, b, a);
    |v.plans| == |w.plans| && k < |w.plans| && Agree(v.session.phase, v.plans[k].status)
  }

  /** Phase and status agree exactly when the latest plan and the step's own, each with the step as it ran, come to
      the same verdict. */
  lemma AgreesAsVerdicts(w: World, k: nat, i: nat, basis: Basis, b: Budgets, a: Answers)
    requires k < |w.plans| && HasPlan(w.plans) && WellStoredPlan(w.plans[k], k + 1) && i < |w.plans[k].steps|
    requires PlanIndex(w.plans, w.plans[k].steps[i].planID) == k && Reconciled(w, w.plans[k].steps[i], b, a)
    ensures var ran := Ran(w, w.plans[k].steps[i], b, a);
            AgreesAfter(w, k, w.plans[k].steps[i], basis, b, a) <==>
              VerdictOf(ReplaceStep(LatestSteps(w.plans), ran), b) == VerdictOf(ReplaceStep(w.plans[k].steps, ran), b)
  {
    var ran, stored := ExecutionLeaves(w, w.plans[k].steps[i], basis, b, a);
    StoredStatus(w.plans, k, i, ran, stored, b);
  }

  /** A step of the latest plan: when the transition is reconciled with the plan, phase and status agree. */
  lemma ReconciledPhaseAgrees(w: World, i: nat, basis: Basis, b: Budgets, a: Answers)
    requires LatestStored(w.plans) && i < |LatestSteps(w.plans)|
    requires Reconciled(w, LatestSteps(w.plans)[i], b, a)
    ensures AgreesAfter(w, |w.plans| - 1, LatestSteps(w.plans)[i], basis, b, a)
  {
    LatestIsHome(w.plans, i);
    AgreesAsVerdicts(w, |w.plans| - 1, i, basis, b, a);
  }

  /** The phase and the latest plan's status follow one verdict. */
  lemma OneVerdict(plans: seq<Plan>, v: World, results: seq<Step>, verdict: Verdict, b: Budgets)
    requires HasPlan(plans) && verdict == VerdictOf(ReplaceSteps(LatestSteps(plans), results), b)
    requires var k := |plans| - 1;
             v.plans == plans[k := WithSteps(plans[k], ReplaceSteps(plans[k].steps, results), b)]
    requires v.session.phase == PhaseForVerdict(verdict)
    ensures |v.plans| == |plans| && Agree(v.session.phase, v.plans[|v.plans|-1].status)
  {
  }

  lemma RoundPhase(w: World, anchor: Step, ps: seq<PreparedStep>, b: Budgets, a: Answers)
    returns (results: seq<Step>, verdict: Verdict)
    requires |ps| > 1
    ensures results == RoundResults(LatestSteps(w.plans), ps, b, a)
    ensures verdict == VerdictOf(ReplaceSteps(LatestSteps(w.plans), results), b)
    ensures ExecuteRound(w, anchor, ps, b, a).plans == WriteSteps(w.plans, results, b)
    ensures ExecuteRound(w, anchor, ps, b, a).session.phase == PhaseForVerdict(verdict)
  {
    results := RoundResults(LatestSteps(w.plans), ps, b, a);
    verdict := VerdictOf(ReplaceSteps(LatestSteps(w.plans), results), b);
  }

  /** A fan-out round always settles the latest plan, and phase and status agree there too. */
  lemma RoundPhaseAgrees(w: World, anchor: Step, ps: seq<PreparedStep>, b: Budgets, a: Answers)
    requires LatestStored(w.plans) && |ps| > 1
    requires DistinctPrepared(ps) && forall p :: p in ps ==> p.step in LatestSteps(w.plans) && !Exhausted(p.step, b)
    ensures var v := ExecuteRound(w, anchor, ps, b, a);
            |v.plans| == |w.plans| && Agree(v.session.phase, v.plans[|v.plans|-1].status)
  {
    RoundSpends(LatestSteps(w.plans), ps, b, a);
    var results, verdict := RoundPhase(w, anchor, ps, b, a);
    WriteStepsIs(w.plans, results, b);
    OneVerdict(w.plans, ExecuteRound(w, anchor, ps, b, a), results, verdict, b);
  }

  // ---- older plans ----

  /** `later` plans were made after those of `own`. */
  ghost predicate Extends(plans: seq<Plan>, own: seq<Plan>, later: nat) {
    && HasPlan(own) && HasPlan(plans) && WellStoredFrom(plans, |own| - 1)
    && |plans| == |own| + later && plans[..|own|] == own
  }

  /** A plan of one step, completed or still waiting; its id is that of no other step in play. */
  function Alone(planID: nat, id: string, open: bool): Plan {
    Plan(planID, true, planID, Active, [Step(planID, id, "t", OnFail("", 0, 0), if open then Pending else Completed, 0, "", PLAIN)])
  }

  lemma AloneSays(planID: nat, id: string, open: bool, b: Budgets)
    ensures VerdictOf(Alone(planID, id, open).steps, b) == if open then GoOn else Done
  {
    var s := Alone(planID, id, open).steps[0];
    assert s in Alone(planID, id, open).steps;
    assert KeepsPending(Alone(planID, id, open).steps, s, b) == open;
  }

  /** Plans after `own`, the last of which says what is asked of it. */
  ghost function Followed(own: seq<Plan>, later: nat, id: string, open: bool): seq<Plan> {
    if later == 0 then own else Followed(own, later - 1, id, open) + [Alone(|own| + later, id, open)]
  }

  lemma {:induction false} FollowedExtends(own: seq<Plan>, later: nat, id: string, open: bool)
    requires LatestStored(own)
    ensures Extends(Followed(own, later, id, open), own, later)
  {
    if later > 0 {
      FollowedExtends(own, later - 1, id, open);
    }
  }

  lemma AnotherID(id: string) returns (other: string)
    ensures other != id
  {
    other := id + "'";
    assert |other| != |id|;
  }

  lemma SucceedsRun(w: World, step: Step, b: Budgets, a: Answers)
    requires forall id :: a.verifierOK(id) && a.toolOK(id) && a.aggregateOK(id) && !a.toolFailed(id)
    ensures Ran(w, step, b, a) == step.(attempt := step.attempt + 1, status := Completed)
  {
  }

  /** In this world, if the plans are those of `own` and so many more, a reconciled run of step `i` of the last of
      `own` leaves phase and status in agreement. */
  ghost predicate AlwaysAgrees(w: World, own: seq<Plan>, i: nat, later: nat, basis: Basis, b: Budgets, a: Answers)
    requires HasPlan(own) && i < |LatestSteps(own)|
  {
    Extends(w.plans, own, later) && Reconciled(w, LatestSteps(own)[i], b, a) ==>
      AgreesAfter(w, |own| - 1, LatestSteps(own)[i], basis, b, a)
  }

  lemma FollowedEnds(own: seq<Plan>, later: nat, id: string, open: bool, done: Step, b: Budgets)
    requires later > 0 && done.stepID != id
    ensures VerdictOf(ReplaceStep(LatestSteps(Followed(own, later, id, open)), done), b) == if open then GoOn else Done
  {
    var last := LatestSteps(Followed(own, later, id, open));
    assert last == Alone(|own| + later, id, open).steps;
    AloneSays(|own| + later, id, open, b);
    assert ReplaceStep(last, done) == last;
  }

  lemma RanReconciles(w: World, step: Step, ran: Step, b: Budgets, a: Answers)
    requires ran == Ran(w, step, b, a) && ran.status.Completed?
    ensures Reconciled(w, step, b, a)
  {
  }

  /** The latest plan and the step's own come to different verdicts. */
  lemma PartsWays(w: World, k: nat, i: nat, ran: Step, b: Budgets, a: Answers)
    requires HasPlan(w.plans) && k < |w.plans| && WellStoredPlan(w.plans[k], k + 1)
    requires i < |w.plans[k].steps| && w.plans[k].steps[i].planID == k + 1
    requires ran == Ran(w, w.plans[k].steps[i], b, a) && ran.status.Completed?
    requires VerdictOf(ReplaceStep(LatestSteps(w.plans), ran), b) != VerdictOf(ReplaceStep(w.plans[k].steps, ran), b)
    ensures !AgreesAfter(w, k, w.plans[k].steps[i], PolicyAllowed, b, a) && Reconciled(w, w.plans[k].steps[i], b, a)
  {
    RanReconciles(w, w.plans[k].steps[i], ran, b, a);
    AgreesAsVerdicts(w, k, i, PolicyAllowed, b, a);
  }

  lemma OwnIsKept(plans: seq<Plan>, own: seq<Plan>, later: nat)
    requires Extends(plans, own, later)
    ensures HasPlan(plans) && |own| <= |plans| && plans[|own|-1] == own[|own|-1] && WellStoredPlan(plans[|own|-1], |own|)
  {
  }

  /** Some later plan makes phase and status part: the phase follows the latest plan, the status the step's own. */
  lemma LaterPlanDisagrees(own: seq<Plan>, i: nat, later: nat, b: Budgets) returns (w: World, a: Answers)
    requires LatestStored(own) && i < |LatestSteps(own)| && LatestSteps(own)[i].planID == |own| && later > 0
    ensures !AlwaysAgrees(w, own, i, later, PolicyAllowed, b, a)
  {
    var k, step := |own| - 1, LatestSteps(own)[i];
    var done := step.(attempt := step.attempt + 1, status := Completed);
    var open := VerdictOf(ReplaceStep(own[k].steps, done), b).Done?;
    var id := AnotherID(step.stepID);
    a := Answers(false, [], false, 1, 1, _ => false, _ => Allow, _ => "", _ => false, _ => true, _ => true, _ => true);
    w := World(Session(Planning, Idle, "", "", 0, None, None, 1, 0, 0), Followed(own, later, id, open), [], [], []);
    FollowedExtends(own, later, id, open);
    FollowedEnds(own, later, id, open, done, b);
    SucceedsRun(w, step, b, a);
    OwnIsKept(w.plans, own, later);
    PartsWays(w, k, i, done, b, a);
  }

  /** A step that names its plan, however many plans there are now: phase and status agree after every reconciled
      run of it exactly when its plan is still the latest. */
  lemma AgreementIffLatest(own: seq<Plan>, i: nat, later: nat, b: Budgets)
    requires LatestStored(own) && i < |LatestSteps(own)| && LatestSteps(own)[i].planID == |own|
    ensures later == 0 <==> forall w, basis, a :: AlwaysAgrees(w, own, i, later, basis, b, a)
  {
    if later == 0 {
      forall w, basis, a ensures AlwaysAgrees(w, own, i, later, basis, b, a) {
        if Extends(w.plans, own, later) && Reconciled(w, LatestSteps(own)[i], b, a) {
          assert w.plans == w.plans[..|own|] == own;
          ReconciledPhaseAgrees(w, i, basis, b, a);
        }
      }
    } else {
      var w, a := LaterPlanDisagrees(own, i, later, b);
    }
  }
}

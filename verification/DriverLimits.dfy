/** Where the driver's promises stop: runs that never end, and exactly when there are any. */
module DriverLimits {
  import opened PlanModel
  import opened Aggregates
  import opened PlanOutcome
  import opened StepSelection
  import opened SessionKernel
  import opened DriverBudget
  import opened DriverRun
  import opened DriverClock

  /** A session just created, in a store that holds the plans of others. */
  function New(others: seq<Plan>): World {
    World(Session(Received, Idle, "", "", 0, None, None, 0, 0, 0), others, [], [], [])
  }

  /** Everything is allowed and every tool succeeds; whether the verifier agrees is up to `verified`. */
  function Calm(planned: seq<Step>, verified: bool, now: int): Answers {
    Answers(false, planned, false, now, now, _ => false, _ => Allow, _ => "", _ => false, _ => true, _ => verified, _ => true)
  }

  function CalmOn(planned: seq<Step>, verified: bool, c: Clock): Oracle {
    (n: nat) => (Calm(planned, verified, c(n)), Calm(planned, verified, c(n)))
  }

  // ---- how a run goes on for ever ----

  ghost predicate GoesOn(step: (World, nat) -> Turn, inv: Condition) {
    forall v, k: nat :: Holds(inv, v, k) ==> TurnOf(step, v, k).Again? && Holds(inv, TurnOf(step, v, k).world, k + 1)
  }

  lemma {:induction false} NeverEnds(step: (World, nat) -> Turn, inv: Condition, w: World, m: nat, n: nat)
    requires GoesOn(step, inv) && Iterate(step, w, m).Again? && Holds(inv, Iterate(step, w, m).world, m) && n >= m
    ensures Iterate(step, w, n).Again? && Holds(inv, Iterate(step, w, n).world, n)
    decreases n
  {
    if n > m {
      NeverEnds(step, inv, w, m, n - 1);
    }
  }

  /** A session that is open and waits for nothing; its clock runs from `start`, or from this turn on. */
  predicate OpenSession(s: Session, start: int, now: int) {
    && !Terminal(s.phase) && s.execution.Idle? && s.pendingApproval.None? && s.inFlightStep == ""
    && AnchorAfter(s.runtimeStartedAt, now) == start && start != 0
  }

  lemma OpenWorks(w: World, b: Budgets, a: Answers, start: int)
    requires OpenSession(w.session, start, a.now) && HasPlan(w.plans) && !a.refused
    ensures DriverTurn(w, b, a, a) == WorkOnPlan(w, b, a)
  {
  }

  /** The first turn of a new session plans, and works on its plan. */
  predicate JustPlanned(mid: World, others: seq<Plan>, a: Answers, b: Budgets) {
    mid == New(others).(session := New(others).session.(runtimeStartedAt := a.now), plans := CreatePlan(others, PlannedSteps(b, a)))
  }

  lemma NewPlans(others: seq<Plan>, mid: World, b: Budgets, a: Answers)
    requires !HasPlan(others) && PlannedSteps(b, a) != [] && !a.refused && !a.planningRefused && JustPlanned(mid, others, a, b)
    ensures DriverTurn(New(others), b, a, a) == WorkOnPlan(mid, b, a)
  {
  }

  lemma FirstTurnIs(w: World, b: Budgets, oracle: Oracle)
    ensures Iterate(DriverLoop(b, oracle), w, 0) == Again(w)
    ensures Iterate(DriverLoop(b, oracle), w, 1) == DriverTurn(w, b, oracle(0).0, oracle(0).1)
  {
    var step := DriverLoop(b, oracle);
    assert Iterate(step, w, 1) == TurnOf(step, w, 0);
  }

  lemma RunsFromPlanned(others: seq<Plan>, mid: World, b: Budgets, oracle: Oracle, inv: Condition, n: nat)
    requires var a := oracle(0).0;
             && oracle(0).1 == a && PlannedSteps(b, a) != [] && !a.refused && !a.planningRefused && JustPlanned(mid, others, a, b)
             && WorkOnPlan(mid, b, a).Again? && Holds(inv, WorkOnPlan(mid, b, a).world, 1)
    requires !HasPlan(others) && GoesOn(DriverLoop(b, oracle), inv) && n > 0
    ensures AfterTurns(New(others), b, oracle, n).Again? && Holds(inv, AfterTurns(New(others), b, oracle, n).world, n)
  {
    NewPlans(others, mid, b, oracle(0).0);
    FirstTurnIs(New(others), b, oracle);
    NeverEnds(DriverLoop(b, oracle), inv, New(others), 1, n);
  }

  // ---- two steps with one id ----

  /** A step as a planner hands it out: waiting, with attempts left, run on its own. */
  predicate Plain(s: Step, b: Budgets) {
    && Waiting(s) && !Exhausted(s, b) && s.metadata.retryNotBefore.None?
    && !(Tagged(s) && s.metadata.aggregateScope == TARGET_FANOUT
         && s.metadata.maxConcurrency.Some? && s.metadata.maxConcurrency.value > 1)
  }

  ghost predicate PlainSteps(steps: seq<Step>, planID: nat, b: Budgets) {
    forall i :: 0 <= i < |steps| ==> Plain(steps[i], b) && steps[i].planID == planID
  }

  /** The session works on its latest plan: completed before `k`, as it was stored from `k` on. */
  ghost predicate Behind(w: World, base: seq<Step>, k: nat) {
    && HasPlan(w.plans) && w.plans[|w.plans|-1].planID == |w.plans| && |LatestSteps(w.plans)| == |base| && k < |base|
    && (w.session.planRef == 0 || w.session.planRef == |w.plans|)
    && (forall m :: 0 <= m < |base| ==> LatestSteps(w.plans)[m].stepID == base[m].stepID)
    && (forall m :: 0 <= m < k ==> LatestSteps(w.plans)[m].status.Completed? && LatestSteps(w.plans)[m].planID == |w.plans|)
    && (forall m :: k <= m < |base| ==> LatestSteps(w.plans)[m] == base[m])
    && (w.session.currentStep != "" ==> exists m :: 0 <= m < k && base[m].stepID == w.session.currentStep)
  }

  lemma CurrentIsDone(w: World, base: seq<Step>, k: nat, b: Budgets)
    requires Behind(w, base, k)
    ensures ExecutableStepByID(LatestSteps(w.plans), w.session.currentStep, b).None?
  {
    var steps, id := LatestSteps(w.plans), w.session.currentStep;
    if id != "" {
      var m :| 0 <= m < k && base[m].stepID == id;
      assert steps[m].stepID == id;
      match FindStep(steps, id)
      case Some(i) => assert i <= m;
      case None =>
    }
  }

  lemma BehindSelects(w: World, base: seq<Step>, k: nat, start: int, now: int, b: Budgets)
    requires Behind(w, base, k) && PlainSteps(base, |w.plans|, b) && OpenSession(w.session, start, now)
    ensures SelectNextStep(w.session.currentStep, w.session.inFlightStep, PinnedSteps(w), LatestSteps(w.plans), b) == RunStep(base[k])
  {
    var steps := LatestSteps(w.plans);
    assert PinnedSteps(w) == steps;
    CurrentIsDone(w, base, k, b);
    assert steps[k] == base[k] && steps[k] in steps;
    assert FirstPending(steps) == Some(k);
  }

  /** A plain step that is selected is executed. */
  lemma PlainRuns(w: World, step: Step, start: int, a: Answers, b: Budgets)
    requires SelectNextStep(w.session.currentStep, w.session.inFlightStep, PinnedSteps(w), LatestSteps(w.plans), b) == RunStep(step)
    requires OpenSession(w.session, start, a.now) && !TooLate(b, start, a.now) && Plain(step, b) && step.planID != 0
    requires !a.stepRefused(step.stepID) && a.policy(step.stepID).Allow?
    ensures WorkOnPlan(w, b, a) == AfterWork(ExecuteStep(w, step, PolicyAllowed, b, a))
  {
    assert FanoutRound(LatestSteps(w.plans), step, b, a.systemNow).None?;
    assert StepGuard(w.session, b, step, None, a).None?;
  }

  /** A step that waits and none that failed: the plan goes on. */
  lemma OpenStepGoesOn(after: seq<Step>, j: nat, b: Budgets)
    requires j < |after| && Plain(after[j], b)
    requires forall m :: 0 <= m < |after| ==> !after[m].status.Failed?
    ensures VerdictOf(after, b).GoOn?
  {
    assert after[j] in after && KeepsPending(after, after[j], b);
    forall s | s in after ensures !s.status.Failed? {
      var m :| 0 <= m < |after| && after[m] == s;
    }
  }

  /** Where the result of step `k` is stored. */
  lemma BehindFinds(w: World, base: seq<Step>, k: nat, j: nat) returns (i: nat)
    requires Behind(w, base, k) && k <= j < |base|
    requires exists i :: 0 <= i < j && base[i].stepID == base[j].stepID
    ensures FindStep(LatestSteps(w.plans), base[k].stepID) == Some(i) && i <= k && (k == j ==> i < k)
  {
    var steps := LatestSteps(w.plans);
    var i0 :| 0 <= i0 < j && base[i0].stepID == base[j].stepID;
    assert steps[k].stepID == base[k].stepID && steps[i0].stepID == base[j].stepID;
    i := FindStep(steps, base[k].stepID).value;
  }

  /** What the plan says with the result of step `k` in it. */
  lemma BehindStores(w: World, base: seq<Step>, k: nat, j: nat, ran: Step, b: Budgets)
    requires Behind(w, base, k) && PlainSteps(base, |w.plans|, b) && k <= j < |base|
    requires exists i :: 0 <= i < j && base[i].stepID == base[j].stepID
    requires ran.stepID == base[k].stepID && ran.status.Completed?
    ensures VerdictOf(ReplaceStep(LatestSteps(w.plans), ran), b).GoOn?
  {
    var steps := LatestSteps(w.plans);
    var i := BehindFinds(w, base, k, j);
    var after := ReplaceStep(steps, ran);
    assert after == steps[i := ran] && after[j] == base[j];
    forall m | 0 <= m < |after| ensures !after[m].status.Failed? {
      assert m >= k && m != i ==> Plain(base[m], b);
    }
    OpenStepGoesOn(after, j, b);
  }

  /** What an invocation that succeeds leaves behind while the plan goes on. */
  lemma SuccessLeaves(w: World, step: Step, start: int, a: Answers, later: int, b: Budgets) returns (stored: Step)
    requires OpenSession(w.session, start, a.now) && HasPlan(w.plans)
    requires a == Calm(a.planned, true, a.now)
    requires var ran := Ran(w, step, b, a);
             ran.status.Completed? ==> VerdictOf(ReplaceStep(LatestSteps(w.plans), ran), b).GoOn?
    ensures var v := ExecuteStep(w, step, PolicyAllowed, b, a);
            && stored.status.Completed? && stored.stepID == step.stepID && stored.planID == step.planID
            && v.plans == WriteStep(w.plans, stored, b)
            && OpenSession(v.session, start, later) && AfterWork(v).Again? && |v.log| == |w.log| + 1
            && v.session.currentStep == (if step.stepID == "" then w.session.currentStep else step.stepID)
            && v.session.planRef == MarkInFlight(w.session, w.plans, step.stepID, a.now).planRef
  {
    var ran := Ran(w, step, b, a);
    stored := WithBackoff(ran, PhaseAfter(Latest(w.plans), ran, true, b), a.now);
  }

  /** Overwriting the first step with the id of step `k` leaves the plan behind in the same way. */
  lemma StaysBehind(w: World, v: World, base: seq<Step>, k: nat, i: nat, stored: Step, b: Budgets)
    requires Behind(w, base, k) && HasPlan(v.plans) && |v.plans| == |w.plans| && v.plans[|w.plans|-1].planID == |w.plans|
    requires stored.stepID == base[k].stepID && stored.status.Completed? && stored.planID == |w.plans|
    requires i <= k && FindStep(LatestSteps(w.plans), stored.stepID) == Some(i)
    requires LatestSteps(v.plans) == LatestSteps(w.plans)[i := stored]
    requires k + 1 < |base| || i < k
    requires v.session.currentStep == (if stored.stepID == "" then w.session.currentStep else stored.stepID)
    requires v.session.planRef == 0 || v.session.planRef == |v.plans|
    ensures Behind(v, base, if i == k then k + 1 else k)
  {
    assert LatestSteps(w.plans)[i].stepID == base[i].stepID;
    if stored.stepID == "" && w.session.currentStep != "" {
      var m :| 0 <= m < k && base[m].stepID == w.session.currentStep;
    }
  }

  lemma BehindRefers(w: World, base: seq<Step>, k: nat, now: int, b: Budgets)
    requires Behind(w, base, k) && PlainSteps(base, |w.plans|, b)
    ensures var ref := MarkInFlight(w.session, w.plans, base[k].stepID, now).planRef; ref == 0 || ref == |w.plans|
  {
    var steps := LatestSteps(w.plans);
    match FindStep(steps, base[k].stepID)
    case None =>
    case Some(i) => assert i >= k ==> steps[i] == base[i];
  }

  /** The turn that runs step `k`, and the step it stores. */
  lemma BehindSucceeds(w: World, base: seq<Step>, k: nat, j: nat, start: int, a: Answers, later: int, b: Budgets)
    returns (v: World, stored: Step)
    requires Behind(w, base, k) && PlainSteps(base, |w.plans|, b) && k <= j < |base|
    requires exists i :: 0 <= i < j && base[i].stepID == base[j].stepID
    requires OpenSession(w.session, start, a.now) && !TooLate(b, start, a.now) && a == Calm(a.planned, true, a.now)
    ensures WorkOnPlan(w, b, a) == Again(v)
    ensures stored.status.Completed? && stored.stepID == base[k].stepID && stored.planID == |w.plans|
    ensures v.plans == WriteStep(w.plans, stored, b) && OpenSession(v.session, start, later) && |v.log| == |w.log| + 1
    ensures v.session.currentStep == (if stored.stepID == "" then w.session.currentStep else stored.stepID)
    ensures v.session.planRef == 0 || v.session.planRef == |w.plans|
  {
    BehindSelects(w, base, k, start, a.now, b);
    PlainRuns(w, base[k], start, a, b);
    v := ExecuteStep(w, base[k], PolicyAllowed, b, a);
    BehindStores(w, base, k, j, Ran(w, base[k], b, a).(status := Completed), b);
    BehindRefers(w, base, k, a.now, b);
    stored := SuccessLeaves(w, base[k], start, a, later, b);
  }

  lemma BehindNext(w: World, v: World, base: seq<Step>, k: nat, j: nat, stored: Step, b: Budgets) returns (next: nat)
    requires Behind(w, base, k) && PlainSteps(base, |w.plans|, b) && k <= j < |base|
    requires exists i :: 0 <= i < j && base[i].stepID == base[j].stepID
    requires stored.status.Completed? && stored.stepID == base[k].stepID && stored.planID == |w.plans|
    requires v.plans == WriteStep(w.plans, stored, b)
    requires v.session.currentStep == (if stored.stepID == "" then w.session.currentStep else stored.stepID)
    requires v.session.planRef == 0 || v.session.planRef == |w.plans|
    ensures |v.plans| == |w.plans| && Behind(v, base, next) && next <= j
  {
    var i := BehindFinds(w, base, k, j);
    LatestWritten(w.plans, stored, i, b);
    StaysBehind(w, v, base, k, i, stored, b);
    next := if i == k then k + 1 else k;
  }

  /** The plan of which step `j` is never completed, after so many invocations. */
  ghost predicate Lagging(v: World, n: nat, base: seq<Step>, j: nat, b: Budgets) {
    |v.log| >= n && PlainSteps(base, |v.plans|, b) && exists k :: 0 <= k <= j && Behind(v, base, k)
  }

  /** As long as a later step repeats an id, the loop goes on: it never gets past that step. */
  lemma LaggingWorks(v: World, n: nat, base: seq<Step>, j: nat, start: int, a: Answers, later: int, b: Budgets)
    requires j < |base| && exists i :: 0 <= i < j && base[i].stepID == base[j].stepID
    requires OpenSession(v.session, start, a.now) && !TooLate(b, start, a.now) && a == Calm(a.planned, true, a.now)
    requires Lagging(v, n, base, j, b)
    ensures var t := WorkOnPlan(v, b, a); t.Again? && Lagging(t.world, n + 1, base, j, b) && OpenSession(t.world.session, start, later)
  {
    var k :| 0 <= k <= j && Behind(v, base, k);
    var u, stored := BehindSucceeds(v, base, k, j, start, a, later, b);
    var next := BehindNext(v, u, base, k, j, stored, b);
  }

  ghost function LaggingFrom(base: seq<Step>, j: nat, b: Budgets, c: Clock): Condition {
    (v: World, n: nat) => OpenSession(v.session, c(0), c(n)) && Lagging(v, n, base, j, b)
  }

  lemma LaggingGoesOn(base: seq<Step>, j: nat, planned: seq<Step>, b: Budgets, c: Clock)
    requires j < |base| && exists i :: 0 <= i < j && base[i].stepID == base[j].stepID
    requires !RunsOut(b, c)
    ensures GoesOn(DriverLoop(b, CalmOn(planned, true, c)), LaggingFrom(base, j, b, c))
  {
    var step := DriverLoop(b, CalmOn(planned, true, c));
    forall v, n: nat | Holds(LaggingFrom(base, j, b, c), v, n)
      ensures TurnOf(step, v, n).Again? && Holds(LaggingFrom(base, j, b, c), TurnOf(step, v, n).world, n + 1)
    {
      assert !TooLate(b, c(0), c(n));
      OpenWorks(v, b, Calm(planned, true, c(n)), c(0));
      LaggingWorks(v, n, base, j, c(0), Calm(planned, true, c(n)), c(n + 1), b);
    }
  }

  lemma StoredAsPlanned(others: seq<Plan>, steps: seq<Step>, planID: nat, b: Budgets)
    requires PlainSteps(steps, planID, b)
    ensures var base := CreatePlan(others, steps)[|others|].steps;
            && |base| == |steps| && PlainSteps(base, if planID == 0 then |others| + 1 else planID, b)
            && forall i :: 0 <= i < |base| ==> base[i].stepID == steps[i].stepID
  {
    var base := CreatePlan(others, steps)[|others|].steps;
    forall i | 0 <= i < |base|
      ensures Plain(base[i], b) && base[i].planID == if planID == 0 then |others| + 1 else planID
    {
      assert Plain(steps[i], b);
      assert base[i] == AnnotateStep(NormalizeStatus(steps[i]), |others| + 1);
    }
  }

  lemma StartsBehind(others: seq<Plan>, steps: seq<Step>, mid: World, a: Answers, b: Budgets) returns (base: seq<Step>)
    requires !HasPlan(others) && PlainSteps(steps, 0, b) && 0 < |steps| <= b.maxSteps && a.planned == steps
    requires JustPlanned(mid, others, a, b)
    ensures |base| == |steps| && forall i :: 0 <= i < |base| ==> base[i].stepID == steps[i].stepID
    ensures PlainSteps(base, |mid.plans|, b) && Behind(mid, base, 0) && mid.log == []
  {
    StoredAsPlanned(others, steps, 0, b);
    base := LatestSteps(mid.plans);
  }

  lemma FirstTurnLags(others: seq<Plan>, steps: seq<Step>, mid: World, i: nat, j: nat, a: Answers, later: int, b: Budgets)
    returns (base: seq<Step>)
    requires !HasPlan(others) && PlainSteps(steps, 0, b) && |steps| <= b.maxSteps
    requires i < j < |steps| && steps[i].stepID == steps[j].stepID && JustPlanned(mid, others, a, b)
    requires a == Calm(steps, true, a.now) && a.now != 0 && !TooLate(b, a.now, a.now)
    ensures |base| == |steps| && base[i].stepID == base[j].stepID
    ensures var t := WorkOnPlan(mid, b, a); t.Again? && Lagging(t.world, 1, base, j, b) && OpenSession(t.world.session, a.now, later)
  {
    base := StartsBehind(others, steps, mid, a, b);
    LaggingWorks(mid, 0, base, j, a.now, a, later, b);
  }

  /** A plan in which an id occurs twice is run for as long as the runtime budget lasts: the later step's result is
      stored over the earlier one. */
  lemma RepeatedIDRunsForever(others: seq<Plan>, steps: seq<Step>, i: nat, j: nat, b: Budgets, c: Clock, n: nat)
    requires !HasPlan(others) && PlainSteps(steps, 0, b) && |steps| <= b.maxSteps
    requires i < j < |steps| && steps[i].stepID == steps[j].stepID
    requires Readings(c) && !RunsOut(b, c)
    ensures var t := AfterTurns(New(others), b, CalmOn(steps, true, c), n); t.Again? && |t.world.log| >= n
  {
    if n > 0 {
      assert c(0) != 0 && !TooLate(b, c(0), c(0));
      var oracle, a := CalmOn(steps, true, c), Calm(steps, true, c(0));
      var mid := New(others).(session := New(others).session.(runtimeStartedAt := a.now), plans := CreatePlan(others, steps));
      var base := FirstTurnLags(others, steps, mid, i, j, a, c(1), b);
      LaggingGoesOn(base, j, steps, b, c);
      RunsFromPlanned(others, mid, b, oracle, LaggingFrom(base, j, b, c), n);
    }
  }

  ghost predicate Plans(oracle: Oracle, steps: seq<Step>) {
    forall n: nat :: oracle(n).0.planned == steps && oracle(n).1.planned == steps
  }

  lemma DistinctIDsEnd(others: seq<Plan>, steps: seq<Step>, b: Budgets, oracle: Oracle)
    requires !HasPlan(others) && PlanningBounded(b) && PlainSteps(steps, 0, b) && DistinctIDs(steps) && Plans(oracle, steps)
    ensures Ends(New(others), b, oracle)
  {
    assert Anonymous(steps);
    forall k: nat ensures Anonymous(oracle(k).0.planned) && Anonymous(oracle(k).1.planned) {
      assert oracle(k).0.planned == steps && oracle(k).1.planned == steps;
    }
    AnonymousPlannersAreGood(New(others), b, oracle);
    var n := DriverEnds(New(others), b, oracle);
  }

  /** A planner that keeps handing out the same steps, and a clock: the driver ends, whatever else is answered,
      exactly when the steps have distinct ids or the runtime budget runs out. */
  lemma EndsIffDistinctIDs(others: seq<Plan>, steps: seq<Step>, b: Budgets, c: Clock)
    requires !HasPlan(others) && PlanningBounded(b) && PlainSteps(steps, 0, b) && |steps| <= b.maxSteps && Readings(c)
    ensures DistinctIDs(steps) || RunsOut(b, c) <==>
            forall oracle :: Clocked(oracle, c) && Plans(oracle, steps) ==> Ends(New(others), b, oracle)
  {
    if DistinctIDs(steps) || RunsOut(b, c) {
      forall oracle | Clocked(oracle, c) && Plans(oracle, steps) ensures Ends(New(others), b, oracle) {
        if DistinctIDs(steps) {
          DistinctIDsEnd(others, steps, b, oracle);
        } else {
          RunsOutEnds(New(others), b, oracle, c);
        }
      }
    } else {
      var i: nat, j: nat :| i < j < |steps| && steps[i].stepID == steps[j].stepID;
      var oracle := CalmOn(steps, true, c);
      assert Clocked(oracle, c) && Plans(oracle, steps);
      forall n: nat ensures AfterTurns(New(others), b, oracle, n).Again? {
        RepeatedIDRunsForever(others, steps, i, j, b, c, n);
      }
      assert !Ends(New(others), b, oracle);
    }
  }

  // ---- steps taken from another session's plan ----

  /** The session's plan was made of the steps of plan `p`, another session's: its first step is still waiting
      there, whatever has become of it in plan `p`, where its results go. */
  ghost predicate Borrowed(v: World, base: seq<Step>, p: nat, n: nat, b: Budgets) {
    && |v.log| >= n && |base| > 1 && PlainSteps(base, p + 1, b)
    && HasPlan(v.plans) && LatestSteps(v.plans) == base && p < |v.plans| - 1
    && v.plans[p].steps != [] && v.plans[p].steps[0].stepID == base[0].stepID && v.plans[p].steps[0].planID == p + 1
    && (v.session.currentStep != "" ==>
          && v.session.currentStep == base[0].stepID && v.session.planRef == p + 1
          && v.plans[p].steps[0].status.Completed?)
  }

  lemma BorrowedSelects(v: World, base: seq<Step>, p: nat, n: nat, start: int, now: int, b: Budgets)
    requires Borrowed(v, base, p, n, b) && OpenSession(v.session, start, now)
    ensures SelectNextStep(v.session.currentStep, v.session.inFlightStep, PinnedSteps(v), LatestSteps(v.plans), b) == RunStep(base[0])
  {
    assert base[0] in base && FirstPending(base) == Some(0);
    assert FindStep(v.plans[p].steps, base[0].stepID) == Some(0);
  }

  lemma BorrowedGoesOn(base: seq<Step>, ran: Step, p: nat, b: Budgets)
    requires |base| > 1 && PlainSteps(base, p + 1, b) && ran.stepID == base[0].stepID && ran.status.Completed?
    ensures VerdictOf(ReplaceStep(base, ran), b).GoOn?
  {
    assert FindStep(base, ran.stepID) == Some(0);
    var after := ReplaceStep(base, ran);
    assert after == base[0 := ran];
    forall m | 0 <= m < |after| ensures !after[m].status.Failed? {
      assert m > 0 ==> Plain(base[m], b);
    }
    OpenStepGoesOn(after, 1, b);
  }

  lemma BorrowedRefers(v: World, base: seq<Step>, p: nat, n: nat, now: int, b: Budgets)
    requires Borrowed(v, base, p, n, b) && v.session.inFlightStep == ""
    ensures base[0].stepID != "" ==> MarkInFlight(v.session, v.plans, base[0].stepID, now).planRef == p + 1
  {
    assert FindStep(v.plans[p].steps, base[0].stepID) == Some(0) && FindStep(base, base[0].stepID) == Some(0);
    if 0 < v.session.planRef <= |v.plans| {
      assert v.session.currentStep != "" ==> v.session.planRef == p + 1;
    }
  }

  lemma BorrowedNext(v: World, u: World, base: seq<Step>, stored: Step, p: nat, n: nat, b: Budgets)
    requires Borrowed(v, base, p, n, b) && |u.log| == |v.log| + 1
    requires stored.stepID == base[0].stepID && stored.status.Completed? && stored.planID == p + 1
    requires u.plans == WriteStep(v.plans, stored, b)
    requires u.session.currentStep == (if base[0].stepID == "" then v.session.currentStep else base[0].stepID)
    requires base[0].stepID != "" ==> u.session.planRef == p + 1
    ensures Borrowed(u, base, p, n + 1, b)
  {
    assert FindStep(v.plans[p].steps, base[0].stepID) == Some(0);
    var home := WriteStepIs(v.plans, stored, b);
  }

  lemma BorrowedWorks(v: World, base: seq<Step>, p: nat, n: nat, start: int, a: Answers, later: int, b: Budgets)
    requires Borrowed(v, base, p, n, b)
    requires OpenSession(v.session, start, a.now) && !TooLate(b, start, a.now) && a == Calm(a.planned, true, a.now)
    ensures var t := WorkOnPlan(v, b, a); t.Again? && Borrowed(t.world, base, p, n + 1, b) && OpenSession(t.world.session, start, later)
  {
    BorrowedSelects(v, base, p, n, start, a.now, b);
    PlainRuns(v, base[0], start, a, b);
    BorrowedGoesOn(base, Ran(v, base[0], b, a).(status := Completed), p, b);
    var stored := SuccessLeaves(v, base[0], start, a, later, b);
    BorrowedRefers(v, base, p, n, a.now, b);
    BorrowedNext(v, ExecuteStep(v, base[0], PolicyAllowed, b, a), base, stored, p, n, b);
  }

  ghost function BorrowedFrom(base: seq<Step>, p: nat, b: Budgets, c: Clock): Condition {
    (v: World, n: nat) => OpenSession(v.session, c(0), c(n)) && Borrowed(v, base, p, n, b)
  }

  lemma BorrowedGoesOnAlong(base: seq<Step>, p: nat, planned: seq<Step>, b: Budgets, c: Clock)
    requires !RunsOut(b, c)
    ensures GoesOn(DriverLoop(b, CalmOn(planned, true, c)), BorrowedFrom(base, p, b, c))
  {
    var step := DriverLoop(b, CalmOn(planned, true, c));
    forall v, n: nat | Holds(BorrowedFrom(base, p, b, c), v, n)
      ensures TurnOf(step, v, n).Again? && Holds(BorrowedFrom(base, p, b, c), TurnOf(step, v, n).world, n + 1)
    {
      assert !TooLate(b, c(0), c(n));
      OpenWorks(v, b, Calm(planned, true, c(n)), c(0));
      BorrowedWorks(v, base, p, n, c(0), Calm(planned, true, c(n)), c(n + 1), b);
    }
  }

  /** A new session whose plan is made of the steps of another session's plan `p`, as they are read from there: with
      every tool succeeding, its first step is invoked again and again. Ids may be distinct, and it never plans. */
  lemma BorrowedStepsRunForever(others: seq<Plan>, p: nat, planned: seq<Step>, b: Budgets, c: Clock, n: nat)
    requires !HasPlan(others) && p < |others| && |others[p].steps| > 1 && PlainSteps(others[p].steps, p + 1, b)
    requires Readings(c) && !RunsOut(b, c)
    ensures var w := New(others).(plans := CreatePlan(others, others[p].steps));
            var t := AfterTurns(w, b, CalmOn(planned, true, c), n); t.Again? && |t.world.log| >= n
  {
    var w := New(others).(plans := CreatePlan(others, others[p].steps));
    var oracle, base := CalmOn(planned, true, c), LatestSteps(w.plans);
    StoredAsPlanned(others, others[p].steps, p + 1, b);
    FirstTurnIs(w, b, oracle);
    BorrowedGoesOnAlong(base, p, planned, b, c);
    assert c(0) != 0 && Borrowed(w, base, p, 0, b);
    assert Holds(BorrowedFrom(base, p, b, c), w, 0);
    NeverEnds(DriverLoop(b, oracle), BorrowedFrom(base, p, b, c), w, 0, n);
  }

  // ---- plan after plan ----

  /** The step of a planner that never gets anywhere; `identity` is the plan it names, 0 for none. */
  function Hopeless(id: string, identity: nat, failed: bool): Step {
    if failed then Step(identity, id, "t", OnFail("replan", 0, 0), Failed, 1, "", PLAIN)
    else Step(identity, id, "t", OnFail("replan", 0, 0), Pending, 0, "", PLAIN)
  }

  function Named(r: nat, planID: nat): nat {
    if r == 0 then planID else r
  }

  /** So many plans are of other sessions; the revision counts the rest. */
  predicate Stored(plans: seq<Plan>, others: nat) {
    |plans| == others + Revision(plans)
  }

  /** The planner always hands out one step that names plan `r`, of which no other session's plan `r` knows the id.
      All plans of the session but the latest have failed. If it comes after plan `r` and after the plans of others,
      it is the last there can be, and is never got rid of. */
  ghost predicate Replanning(w: World, id: string, stored: nat, r: nat, tried: bool) {
    && id != "" && (w.session.currentStep == "" || w.session.currentStep == id)
    && (0 < w.session.planRef <= stored ==> w.session.planRef == r)
    && HasPlan(w.plans) && Stored(w.plans, stored) && |w.plans| > stored
    && (0 < r <= stored ==> FindStep(w.plans[r-1].steps, id).None?)
    && (r > 0 && |w.plans| > r ==> (|w.plans| == r + 1 || |w.plans| == stored + 1) && !tried)
    && forall k :: stored <= k < |w.plans| ==>
                     w.plans[k].planID == k + 1 && w.plans[k].steps == [Hopeless(id, Named(r, k + 1), k < |w.plans| - 1 || tried)]
  }

  lemma ReplanningSelects(w: World, id: string, stored: nat, r: nat, tried: bool, start: int, now: int, b: Budgets)
    requires Replanning(w, id, stored, r, tried) && OpenSession(w.session, start, now)
    ensures SelectNextStep(w.session.currentStep, w.session.inFlightStep, PinnedSteps(w), LatestSteps(w.plans), b)
            == if tried then NeedsPlanning else RunStep(Hopeless(id, Named(r, |w.plans|), false))
  {
    var latest := LatestSteps(w.plans);
    var pinned := PinnedSteps(w);
    assert latest == [Hopeless(id, Named(r, |w.plans|), tried)];
    if 0 < w.session.planRef <= stored && w.session.currentStep != "" {
      assert FindStep(pinned, id).None?;
    } else {
      assert FindStep(pinned, id) == Some(0);
    }
    if tried {
      assert FirstPending(latest[1..]) == None;
    }
  }

  lemma HopelessRefers(w: World, id: string, stored: nat, r: nat, now: int)
    requires Replanning(w, id, stored, r, false)
    ensures var ref := MarkInFlight(w.session, w.plans, id, now).planRef; 0 < ref <= stored ==> ref == r
  {
    if 0 < w.session.planRef <= |w.plans| {
      var k := w.session.planRef - 1;
      assert k >= stored ==> FindStep(w.plans[k].steps, id) == Some(0);
    }
    assert FindStep(LatestSteps(w.plans), id) == Some(0);
  }

  lemma HopelessStores(w: World, id: string, stored: nat, r: nat, b: Budgets)
    requires Replanning(w, id, stored, r, false)
    ensures var n := |w.plans|;
            WriteStep(w.plans, Hopeless(id, Named(r, n), true), b)
            == if r == 0 || n <= r
               then w.plans[n - 1 := WithSteps(w.plans[n-1], [Hopeless(id, Named(r, n), true)], b)]
               else if r <= stored then w.plans
               else w.plans[r - 1 := WithSteps(w.plans[r-1], [Hopeless(id, r, true)], b)]
  {
    var n, ran := |w.plans|, Hopeless(id, Named(r, |w.plans|), true);
    var k := WriteStepIs(w.plans, ran, b);
    if k >= stored {
      assert FindStep(w.plans[k].steps, id) == Some(0);
      assert w.plans[k].steps[0 := ran] == [ran];
    }
  }

  /** The session after its step failed: nothing else of it matters here. */
  lemma HopelessSession(w: World, id: string, planID: nat, start: int, a: Answers, later: int, b: Budgets)
    requires OpenSession(w.session, start, a.now) && a == Calm(a.planned, false, a.now) && planID > 0 && id != ""
    ensures var v := ExecuteStep(w, Hopeless(id, planID, false), PolicyAllowed, b, a);
            && OpenSession(v.session, start, later) && v.session.currentStep == id
            && v.session.planRef == MarkInFlight(w.session, w.plans, id, a.now).planRef
            && v.plans == WriteStep(w.plans, Hopeless(id, planID, true), b) && |v.log| == |w.log| + 1
  {
    var ran := Ran(w, Hopeless(id, planID, false), b, a);
    assert ran == Hopeless(id, planID, true);
    assert PhaseAfter(Latest(w.plans), ran, false, b) == Planning;
  }

  lemma HopelessFails(w: World, v: World, id: string, stored: nat, r: nat, b: Budgets)
    requires Replanning(w, id, stored, r, false)
    requires v.plans == WriteStep(w.plans, Hopeless(id, Named(r, |w.plans|), true), b) && v.session.currentStep == id
    requires 0 < v.session.planRef <= stored ==> v.session.planRef == r
    ensures Replanning(v, id, stored, r, r == 0 || |w.plans| <= r)
  {
    HopelessStores(w, id, stored, r, b);
  }

  /** Another plan is allowed for as long as this planner needs one. */
  predicate RoomFor(b: Budgets, stored: nat, r: nat) {
    b.maxSteps > 0 && (b.maxPlanRevisions <= 0 || 0 < r < stored + b.maxPlanRevisions)
  }

  lemma PlansAgain(w: World, start: int, a: Answers, b: Budgets)
    requires OpenSession(w.session, start, a.now) && !TooLate(b, start, a.now) && !a.planningRefused
    requires PlannedSteps(b, a) == a.planned != [] && (b.maxPlanRevisions > 0 ==> Revision(w.plans) < b.maxPlanRevisions)
    ensures CreatePlanFromPlanner(w, b, a)
            == (w.(session := w.session.(runtimeStartedAt := start), plans := CreatePlan(w.plans, a.planned)), None)
  {
  }

  lemma NextPlan(w: World, v: World, id: string, stored: nat, r: nat)
    requires Replanning(w, id, stored, r, true) && v.plans == CreatePlan(w.plans, [Hopeless(id, r, false)])
    requires v.session.currentStep == w.session.currentStep && v.session.planRef == w.session.planRef
    ensures Replanning(v, id, stored, r, false)
  {
    var more := v.plans;
    assert more[|w.plans|].steps == [Hopeless(id, Named(r, |w.plans| + 1), false)];
    assert forall k :: 0 <= k < |w.plans| ==> more[k] == w.plans[k];
  }

  lemma TriedWorks(v: World, n: nat, id: string, stored: nat, r: nat, start: int, a: Answers, later: int, b: Budgets)
    requires Replanning(v, id, stored, r, true) && 2 * |v.log| - 1 >= n && RoomFor(b, stored, r)
    requires OpenSession(v.session, start, a.now) && !TooLate(b, start, a.now) && a == Calm([Hopeless(id, r, false)], false, a.now)
    ensures var t := WorkOnPlan(v, b, a); t.Again? && NeverDone(t.world, n + 1, id, stored, r) && OpenSession(t.world.session, start, later)
  {
    assert PlannedSteps(b, a) == a.planned;
    ReplanningSelects(v, id, stored, r, true, start, a.now, b);
    PlansAgain(v, start, a, b);
    NextPlan(v, CreatePlanFromPlanner(v, b, a).0, id, stored, r);
  }

  ghost predicate NeverDone(v: World, n: nat, id: string, stored: nat, r: nat) {
    (Replanning(v, id, stored, r, true) && 2 * |v.log| - 1 >= n) || (Replanning(v, id, stored, r, false) && 2 * |v.log| >= n)
  }

  lemma WaitingWorks(v: World, n: nat, id: string, stored: nat, r: nat, start: int, a: Answers, later: int, b: Budgets)
    requires Replanning(v, id, stored, r, false) && 2 * |v.log| >= n
    requires OpenSession(v.session, start, a.now) && !TooLate(b, start, a.now) && a == Calm(a.planned, false, a.now)
    ensures var t := WorkOnPlan(v, b, a); t.Again? && NeverDone(t.world, n + 1, id, stored, r) && OpenSession(t.world.session, start, later)
  {
    var step := Hopeless(id, Named(r, |v.plans|), false);
    ReplanningSelects(v, id, stored, r, false, start, a.now, b);
    PlainRuns(v, step, start, a, b);
    HopelessSession(v, id, Named(r, |v.plans|), start, a, later, b);
    HopelessRefers(v, id, stored, r, a.now);
    HopelessFails(v, ExecuteStep(v, step, PolicyAllowed, b, a), id, stored, r, b);
  }

  lemma NeverDoneWorks(v: World, n: nat, id: string, stored: nat, r: nat, start: int, a: Answers, later: int, b: Budgets)
    requires RoomFor(b, stored, r) && NeverDone(v, n, id, stored, r)
    requires OpenSession(v.session, start, a.now) && !TooLate(b, start, a.now) && a == Calm([Hopeless(id, r, false)], false, a.now)
    ensures var t := WorkOnPlan(v, b, a); t.Again? && NeverDone(t.world, n + 1, id, stored, r) && OpenSession(t.world.session, start, later)
  {
    if Replanning(v, id, stored, r, false) && 2 * |v.log| >= n {
      WaitingWorks(v, n, id, stored, r, start, a, later, b);
    } else {
      TriedWorks(v, n, id, stored, r, start, a, later, b);
    }
  }

  ghost function NeverDoneWith(id: string, stored: nat, r: nat, c: Clock): Condition {
    (v: World, n: nat) => OpenSession(v.session, c(0), c(n)) && NeverDone(v, n, id, stored, r)
  }

  lemma NeverDoneGoesOn(id: string, stored: nat, r: nat, b: Budgets, c: Clock)
    requires RoomFor(b, stored, r) && !RunsOut(b, c)
    ensures GoesOn(DriverLoop(b, CalmOn([Hopeless(id, r, false)], false, c)), NeverDoneWith(id, stored, r, c))
  {
    var step := DriverLoop(b, CalmOn([Hopeless(id, r, false)], false, c));
    forall v, n: nat | Holds(NeverDoneWith(id, stored, r, c), v, n)
      ensures TurnOf(step, v, n).Again? && Holds(NeverDoneWith(id, stored, r, c), TurnOf(step, v, n).world, n + 1)
    {
      assert !TooLate(b, c(0), c(n));
      OpenWorks(v, b, Calm([Hopeless(id, r, false)], false, c(n)), c(0));
      NeverDoneWorks(v, n, id, stored, r, c(0), Calm([Hopeless(id, r, false)], false, c(n)), c(n + 1), b);
    }
  }

  /** The id is new to the plan the planner names, if that is one of another session. */
  predicate NewTo(others: seq<Plan>, r: nat, id: string) {
    id != "" && (0 < r <= |others| ==> FindStep(others[r-1].steps, id).None?)
  }

  lemma StartsReplanning(others: seq<Plan>, mid: World, id: string, r: nat, a: Answers, b: Budgets)
    requires !HasPlan(others) && NewTo(others, r, id) && b.maxSteps > 0 && a.planned == [Hopeless(id, r, false)]
    requires JustPlanned(mid, others, a, b)
    ensures PlannedSteps(b, a) == a.planned && Replanning(mid, id, |others|, r, false) && mid.log == []
  {
    assert PlannedSteps(b, a) == a.planned;
    assert mid.plans[|others|].steps == [Hopeless(id, Named(r, |others| + 1), false)];
    assert 0 < r <= |others| ==> mid.plans[r-1] == others[r-1];
  }

  /** A planner that answers one failing step for as long as the runtime budget lasts: with no bound on revisions it
      gets plan after plan; with one, a step that names another session's plan, or an early one of its own, has its
      results stored there and stays pending. */
  lemma ReplanningRunsForever(others: seq<Plan>, id: string, r: nat, b: Budgets, c: Clock, n: nat)
    requires !HasPlan(others) && NewTo(others, r, id) && RoomFor(b, |others|, r) && Readings(c) && !RunsOut(b, c)
    ensures var t := AfterTurns(New(others), b, CalmOn([Hopeless(id, r, false)], false, c), n); t.Again? && 2 * |t.world.log| >= n
  {
    if n > 0 {
      assert c(0) != 0 && !TooLate(b, c(0), c(0));
      var planned := [Hopeless(id, r, false)];
      var oracle, a := CalmOn(planned, false, c), Calm(planned, false, c(0));
      var mid := New(others).(session := New(others).session.(runtimeStartedAt := a.now), plans := CreatePlan(others, planned));
      assert PlannedSteps(b, a) == planned;
      StartsReplanning(others, mid, id, r, a, b);
      WaitingWorks(mid, 0, id, |others|, r, c(0), a, c(1), b);
      NeverDoneGoesOn(id, |others|, r, b, c);
      RunsFromPlanned(others, mid, b, oracle, NeverDoneWith(id, |others|, r, c), n);
    }
  }

  /** A run that starts with its own first turn and is timed by this clock. */
  ghost predicate StartsOn(w: World, oracle: Oracle, c: Clock) {
    w.session.runtimeStartedAt == 0 && Clocked(oracle, c)
  }

  /** The loop ends from every sound session and on all answers that name no stored plan, exactly when re-planning is
      bounded or the runtime budget runs out: a revision budget that is zero or negative bounds nothing, unless there
      are no steps to plan. */
  lemma EndsIffPlanningBounded(b: Budgets, c: Clock)
    requires Readings(c)
    ensures PlanningBounded(b) || RunsOut(b, c) <==>
            forall w, oracle :: Ready(w) && StartsOn(w, oracle, c) && GoodOracle(w, b, oracle) ==> Ends(w, b, oracle)
  {
    if PlanningBounded(b) || RunsOut(b, c) {
      forall w, oracle | Ready(w) && StartsOn(w, oracle, c) && GoodOracle(w, b, oracle) ensures Ends(w, b, oracle) {
        if PlanningBounded(b) {
          var n := DriverEnds(w, b, oracle);
        } else {
          RunsOutEnds(w, b, oracle, c);
        }
      }
    } else {
      var oracle := CalmOn([Hopeless("x", 0, false)], false, c);
      AnonymousPlannersAreGood(New([]), b, oracle);
      forall n: nat ensures AfterTurns(New([]), b, oracle, n).Again? {
        ReplanningRunsForever([], "x", 0, b, c, n);
      }
      assert Ready(New([])) && StartsOn(New([]), oracle, c) && !Ends(New([]), b, oracle);
    }
  }

  // ---- steps that name a plan ----

  /** Distinct ids within a plan, and no plan named but `r`. */
  ghost predicate NamesOnly(steps: seq<Step>, r: nat) {
    DistinctIDs(steps) && forall i :: 0 <= i < |steps| ==> steps[i].planID == 0 || steps[i].planID == r
  }

  ghost predicate PlannerNames(oracle: Oracle, r: nat) {
    forall n: nat :: NamesOnly(oracle(n).0.planned, r) && NamesOnly(oracle(n).1.planned, r)
  }

  /** The plan named is none of another session, and comes no earlier than the last the session may have. */
  predicate Harmless(b: Budgets, stored: nat, r: nat) {
    b.maxSteps <= 0 || (b.maxPlanRevisions > 0 && (r == 0 || r >= stored + b.maxPlanRevisions))
  }

  lemma StepKeepsCount(w: World, given: Step, forced: Option<Grant>, stored: nat, b: Budgets, a: Answers)
    requires Stored(w.plans, stored)
    ensures var r := RunStepWithDecision(w, given, forced, b, a); r.Ok? ==> Stored(r.value.plans, stored)
  {
    if RunStepWithDecision(w, given, forced, b, a).Ok? {
      var s := StepWrites(w, given, forced, b, a);
      WriteKeepsOwners(w.plans, s, b);
    }
  }

  lemma RoundKeepsCount(w: World, selected: Step, stored: nat, b: Budgets, a: Answers)
    requires Stored(w.plans, stored)
    ensures var r := TryFanoutRound(w, selected, b, a); r.RoundDone? ==> Stored(r.world.plans, stored)
  {
    if TryFanoutRound(w, selected, b, a).RoundDone? {
      var ps := RoundDoneIs(w, selected, b, a);
      RoundLeaves(w, selected, ps, b, a);
      BatchKeepsCount(w.plans, RoundResults(LatestSteps(w.plans), ps, b, a), stored, b);
    }
  }

  lemma BatchKeepsCount(plans: seq<Plan>, results: seq<Step>, stored: nat, b: Budgets)
    requires Stored(plans, stored)
    ensures Stored(WriteSteps(plans, results, b), stored)
  {
    BatchKeepsOwners(plans, results, b);
  }

  lemma PlanningKeepsCount(w: World, stored: nat, b: Budgets, a: Answers)
    requires Stored(w.plans, stored)
    ensures Stored(CreatePlanFromPlanner(w, b, a).0.plans, stored)
  {
  }

  lemma SelectedKeepsCount(w: World, step: Step, stored: nat, b: Budgets, a: Answers)
    requires Stored(w.plans, stored)
    ensures Stored(RunSelected(w, step, b, a).world.plans, stored)
  {
    RoundKeepsCount(w, step, stored, b, a);
    StepKeepsCount(w, step, None, stored, b, a);
  }

  lemma WorkKeepsCount(w: World, stored: nat, b: Budgets, a: Answers)
    requires Stored(w.plans, stored)
    ensures Stored(WorkOnPlan(w, b, a).world.plans, stored)
  {
    match SelectNextStep(w.session.currentStep, w.session.inFlightStep, PinnedSteps(w), LatestSteps(w.plans), b)
    case NeedsPlanning => PlanningKeepsCount(w, stored, b, a);
    case NothingToRun =>
    case RunStep(step) => SelectedKeepsCount(w, step, stored, b, a);
  }

  /** A turn makes no plan for another session. */
  lemma TurnKeepsCount(w: World, stored: nat, b: Budgets, opening: Answers, a: Answers)
    requires Stored(w.plans, stored)
    ensures Stored(DriverTurn(w, b, opening, a).world.plans, stored)
  {
    if w.session.pendingApproval.Some? {
      var id := w.session.pendingApproval.value;
      if id < |w.approvals| && ResumeDecision(w.approvals[id]).Some? {
        StepKeepsCount(w, w.approvals[id].step, Some(Grant(id, ResumeDecision(w.approvals[id]).value)), stored, b, a);
      }
    } else if HasPlan(w.plans) {
      WorkKeepsCount(w, stored, b, a);
    } else {
      PlanningKeepsCount(w, stored, b, opening);
      WorkKeepsCount(CreatePlanFromPlanner(w, b, opening).0, stored, b, a);
    }
  }

  ghost predicate KeepsCount(step: (World, nat) -> Turn, stored: nat) {
    forall v: World, k: nat :: Stored(v.plans, stored) ==> Stored(TurnOf(step, v, k).world.plans, stored)
  }

  lemma DriverKeepsCount(b: Budgets, oracle: Oracle, stored: nat)
    ensures KeepsCount(DriverLoop(b, oracle), stored)
  {
    forall v: World, k: nat | Stored(v.plans, stored)
      ensures Stored(TurnOf(DriverLoop(b, oracle), v, k).world.plans, stored)
    {
      TurnKeepsCount(v, stored, b, oracle(k).0, oracle(k).1);
    }
  }

  lemma {:induction false} CountStays(step: (World, nat) -> Turn, w: World, stored: nat, n: nat)
    requires KeepsCount(step, stored) && Stored(w.plans, stored)
    ensures Stored(Iterate(step, w, n).world.plans, stored)
  {
    if n > 0 {
      CountStays(step, w, stored, n - 1);
    }
  }

  lemma HarmlessTurn(v: World, b: Budgets, opening: Answers, a: Answers, stored: nat, r: nat)
    requires Harmless(b, stored, r) && Stored(v.plans, stored) && NamesOnly(opening.planned, r) && NamesOnly(a.planned, r)
    ensures GoodTurn(v, b, opening, a)
  {
  }

  lemma HarmlessIsGood(w: World, b: Budgets, oracle: Oracle, stored: nat, r: nat)
    requires Harmless(b, stored, r) && PlannerNames(oracle, r) && Stored(w.plans, stored)
    ensures GoodOracle(w, b, oracle)
  {
    DriverKeepsCount(b, oracle, stored);
    forall n: nat | AfterTurns(w, b, oracle, n).Again?
      ensures GoodTurn(AfterTurns(w, b, oracle, n).world, b, oracle(n).0, oracle(n).1)
    {
      CountStays(DriverLoop(b, oracle), w, stored, n);
      assert NamesOnly(oracle(n).0.planned, r) && NamesOnly(oracle(n).1.planned, r);
      HarmlessTurn(AfterTurns(w, b, oracle, n).world, b, oracle(n).0, oracle(n).1, stored, r);
    }
  }

  lemma HarmlessEnds(w: World, b: Budgets, oracle: Oracle, c: Clock, stored: nat, r: nat)
    requires Harmless(b, stored, r) || RunsOut(b, c)
    requires Ready(w) && Stored(w.plans, stored) && Readings(c) && StartsOn(w, oracle, c) && PlannerNames(oracle, r)
    ensures Ends(w, b, oracle)
  {
    if RunsOut(b, c) {
      RunsOutEnds(w, b, oracle, c);
    } else {
      HarmlessIsGood(w, b, oracle, stored, r);
      var n := DriverEnds(w, b, oracle);
    }
  }

  lemma {:induction false} LongerID(steps: seq<Step>) returns (id: string)
    ensures forall i :: 0 <= i < |steps| ==> |steps[i].stepID| < |id|
    ensures id != ""
  {
    if steps == [] {
      id := "x";
    } else {
      var rest := LongerID(steps[1..]);
      id := rest + steps[0].stepID;
      assert forall i :: 0 < i < |steps| ==> steps[i] == steps[1..][i-1];
    }
  }

  /** There are ids new to any plan. */
  lemma NewID(others: seq<Plan>, r: nat) returns (id: string)
    ensures NewTo(others, r, id)
  {
    if 0 < r <= |others| {
      id := LongerID(others[r-1].steps);
    } else {
      id := "x";
    }
  }

  lemma HarmfulRuns(others: seq<Plan>, r: nat, b: Budgets, c: Clock) returns (oracle: Oracle)
    requires !HasPlan(others) && Readings(c) && !RunsOut(b, c) && !Harmless(b, |others|, r)
    ensures StartsOn(New(others), oracle, c) && PlannerNames(oracle, r) && !Ends(New(others), b, oracle)
  {
    var id := NewID(others, r);
    oracle := CalmOn([Hopeless(id, r, false)], false, c);
    forall n: nat ensures AfterTurns(New(others), b, oracle, n).Again? {
      ReplanningRunsForever(others, id, r, b, c, n);
    }
  }

  /** A new session in a store with any plans of others, and planners whose steps name plan `r` or none: the loop
      always ends exactly when there is nothing to plan, or the budget on revisions is positive and `r` is neither
      another session's plan nor earlier than the last the budget allows, or the runtime budget runs out. */
  lemma EndsIffIdentityHarmless(others: seq<Plan>, r: nat, b: Budgets, c: Clock)
    requires !HasPlan(others) && Readings(c)
    ensures Harmless(b, |others|, r) || RunsOut(b, c) <==>
            forall oracle :: StartsOn(New(others), oracle, c) && PlannerNames(oracle, r) ==> Ends(New(others), b, oracle)
  {
    if Harmless(b, |others|, r) || RunsOut(b, c) {
      forall oracle | StartsOn(New(others), oracle, c) && PlannerNames(oracle, r) ensures Ends(New(others), b, oracle) {
        HarmlessEnds(New(others), b, oracle, c, |others|, r);
      }
    } else {
      var oracle := HarmfulRuns(others, r, b, c);
    }
  }

  function OtherPlans(n: nat): (plans: seq<Plan>)
    ensures |plans| == n && !HasPlan(plans)
  {
    seq(n, k requires 0 <= k < n => Plan(k + 1, false, 1, PlanCompleted, []))
  }

  /** The same over all sound sessions in a store with so many plans of others. */
  lemma EndsIffHarmlessEverywhere(stored: nat, r: nat, b: Budgets, c: Clock)
    requires Readings(c)
    ensures Harmless(b, stored, r) || RunsOut(b, c) <==>
            forall w, oracle :: Ready(w) && Stored(w.plans, stored) && StartsOn(w, oracle, c) && PlannerNames(oracle, r) ==>
              Ends(w, b, oracle)
  {
    if Harmless(b, stored, r) || RunsOut(b, c) {
      forall w, oracle | Ready(w) && Stored(w.plans, stored) && StartsOn(w, oracle, c) && PlannerNames(oracle, r)
        ensures Ends(w, b, oracle)
      {
        HarmlessEnds(w, b, oracle, c, stored, r);
      }
    } else {
      var oracle := HarmfulRuns(OtherPlans(stored), r, b, c);
      assert Ready(New(OtherPlans(stored)));
    }
  }
}

/** The runtime budget: with one that is set, a clock that goes on ends every run of the driver, whatever is planned. */
module DriverClock {
  import opened PlanModel
  import opened StepSelection
  import opened SessionKernel
  import opened DriverBudget
  import opened DriverRun

  ghost predicate Ends(w: World, b: Budgets, oracle: Oracle) {
    exists n: nat :: !AfterTurns(w, b, oracle, n).Again?
  }

  // ---- one turn ----

  predicate TooLate(b: Budgets, start: int, now: int) {
    b.maxTotalRuntimeMS > 0 && now - start > b.maxTotalRuntimeMS
  }

  lemma LateStepFaults(w: World, given: Step, forced: Option<Grant>, b: Budgets, a: Answers)
    requires w.session.runtimeStartedAt != 0 && TooLate(b, w.session.runtimeStartedAt, a.now)
    ensures RunStepWithDecision(w, given, forced, b, a).Err?
  {
  }

  lemma LateWorkEnds(w: World, b: Budgets, a: Answers)
    requires w.session.runtimeStartedAt != 0 && TooLate(b, w.session.runtimeStartedAt, a.now)
    ensures !WorkOnPlan(w, b, a).Again?
  {
    match SelectNextStep(w.session.currentStep, w.session.inFlightStep, PinnedSteps(w), LatestSteps(w.plans), b)
    case NeedsPlanning =>
    case NothingToRun =>
    case RunStep(step) => LateStepFaults(w, step, None, b, a);
  }

  /** A turn that reads the clock after the budget has run out is the last. */
  lemma LateTurnEnds(w: World, b: Budgets, opening: Answers, a: Answers)
    requires w.session.runtimeStartedAt != 0
    requires TooLate(b, w.session.runtimeStartedAt, opening.now) && TooLate(b, w.session.runtimeStartedAt, a.now)
    ensures !DriverTurn(w, b, opening, a).Again?
  {
    if w.session.pendingApproval.Some? {
      var id := w.session.pendingApproval.value;
      if id < |w.approvals| && ResumeDecision(w.approvals[id]).Some? {
        LateStepFaults(w, w.approvals[id].step, Some(Grant(id, ResumeDecision(w.approvals[id]).value)), b, a);
      }
    } else if HasPlan(w.plans) {
      LateWorkEnds(w, b, a);
    }
  }

  /** The clock a session is timed by: its own anchor, or the first reading if it has none. */
  function AnchorAfter(start: int, now: int): int {
    if start == 0 then now else start
  }

  lemma StepAnchors(w: World, given: Step, forced: Option<Grant>, b: Budgets, a: Answers)
    ensures var r := RunStepWithDecision(w, given, forced, b, a);
            r.Ok? && AfterWork(r.value).Again? ==>
              r.value.session.runtimeStartedAt == AnchorAfter(w.session.runtimeStartedAt, a.now)
  {
  }

  lemma RoundAnchors(w: World, selected: Step, b: Budgets, a: Answers)
    ensures var r := TryFanoutRound(w, selected, b, a);
            r.RoundDone? ==> r.world.session.runtimeStartedAt == AnchorAfter(w.session.runtimeStartedAt, a.now)
  {
    if TryFanoutRound(w, selected, b, a).RoundDone? {
      var ps := RoundDoneIs(w, selected, b, a);
      RunRoundAnchors(w, selected, ps, b, a);
    }
  }

  lemma RunRoundAnchors(w: World, anchor: Step, ps: seq<PreparedStep>, b: Budgets, a: Answers)
    requires |ps| > 1
    ensures ExecuteRound(w, anchor, ps, b, a).session.runtimeStartedAt == AnchorAfter(w.session.runtimeStartedAt, a.now)
  {
  }

  lemma WorkAnchors(w: World, b: Budgets, a: Answers)
    ensures var t := WorkOnPlan(w, b, a);
            t.Again? ==> t.world.session.runtimeStartedAt == AnchorAfter(w.session.runtimeStartedAt, a.now)
  {
    match SelectNextStep(w.session.currentStep, w.session.inFlightStep, PinnedSteps(w), LatestSteps(w.plans), b)
    case NeedsPlanning =>
    case NothingToRun =>
    case RunStep(step) =>
      RoundAnchors(w, step, b, a);
      StepAnchors(w, step, None, b, a);
  }

  /** A turn that is not the last leaves the session with an anchor: the one it had, or a reading of that turn. */
  lemma TurnAnchors(w: World, b: Budgets, opening: Answers, a: Answers)
    requires opening.now != 0 && a.now != 0
    ensures var t := DriverTurn(w, b, opening, a);
            t.Again? ==>
              var anchor := t.world.session.runtimeStartedAt;
              if w.session.runtimeStartedAt != 0 then anchor == w.session.runtimeStartedAt else anchor == opening.now || anchor == a.now
  {
    if w.session.pendingApproval.Some? {
      var id := w.session.pendingApproval.value;
      if id < |w.approvals| && ResumeDecision(w.approvals[id]).Some? {
        StepAnchors(w, w.approvals[id].step, Some(Grant(id, ResumeDecision(w.approvals[id]).value)), b, a);
      }
    } else if HasPlan(w.plans) {
      WorkAnchors(w, b, a);
    } else {
      WorkAnchors(CreatePlanFromPlanner(w, b, opening).0, b, a);
    }
  }

  // ---- whole runs ----

  ghost predicate Ticking(oracle: Oracle) {
    forall n: nat :: oracle(n).0.now != 0 && oracle(n).1.now != 0
  }

  ghost predicate KeepsAnchor(step: (World, nat) -> Turn) {
    forall v: World, k: nat :: v.session.runtimeStartedAt != 0 && TurnOf(step, v, k).Again? ==>
      TurnOf(step, v, k).world.session.runtimeStartedAt == v.session.runtimeStartedAt
  }

  lemma DriverKeepsAnchor(b: Budgets, oracle: Oracle)
    requires Ticking(oracle)
    ensures KeepsAnchor(DriverLoop(b, oracle))
  {
    var step := DriverLoop(b, oracle);
    forall v: World, k: nat | v.session.runtimeStartedAt != 0 && TurnOf(step, v, k).Again?
      ensures TurnOf(step, v, k).world.session.runtimeStartedAt == v.session.runtimeStartedAt
    {
      TurnAnchors(v, b, oracle(k).0, oracle(k).1);
    }
  }

  lemma {:induction false} AnchorStays(step: (World, nat) -> Turn, w: World, m: nat, n: nat)
    requires KeepsAnchor(step) && m <= n && Iterate(step, w, n).Again?
    ensures Iterate(step, w, m).Again?
    ensures var start := Iterate(step, w, m).world.session.runtimeStartedAt;
            start != 0 ==> Iterate(step, w, n).world.session.runtimeStartedAt == start
    decreases n - m
  {
    if m < n {
      AnchorStays(step, w, m, n - 1);
    }
  }

  /** The budget counted from this anchor has run out at this turn. */
  predicate LateAt(b: Budgets, start: int, oracle: Oracle, n: nat) {
    TooLate(b, start, oracle(n).0.now) && TooLate(b, start, oracle(n).1.now)
  }

  /** A run that has its anchor by turn `m` ends at the latest with a later turn at which the budget has run out. */
  lemma LateEnds(w: World, b: Budgets, oracle: Oracle, m: nat, start: int, n: nat)
    requires Ticking(oracle) && m <= n && start != 0 && LateAt(b, start, oracle, n)
    requires AfterTurns(w, b, oracle, m).Again? ==> AfterTurns(w, b, oracle, m).world.session.runtimeStartedAt == start
    ensures Ends(w, b, oracle)
  {
    var step := DriverLoop(b, oracle);
    DriverKeepsAnchor(b, oracle);
    if AfterTurns(w, b, oracle, n).Again? {
      AnchorStays(step, w, m, n);
      LateTurnEnds(AfterTurns(w, b, oracle, n).world, b, oracle(n).0, oracle(n).1);
      assert AfterTurns(w, b, oracle, n + 1) == TurnOf(step, AfterTurns(w, b, oracle, n).world, n);
    }
  }

  /** A session whose clock is running, and one turn that comes too late for it: the loop ends. */
  lemma PassedBudgetEnds(w: World, b: Budgets, oracle: Oracle, n: nat)
    requires Ticking(oracle) && w.session.runtimeStartedAt != 0 && LateAt(b, w.session.runtimeStartedAt, oracle, n)
    ensures Ends(w, b, oracle)
  {
    assert AfterTurns(w, b, oracle, 0) == Again(w);
    LateEnds(w, b, oracle, 0, w.session.runtimeStartedAt, n);
  }

  lemma FirstTurnAnchors(w: World, b: Budgets, oracle: Oracle) returns (start: int)
    requires Ticking(oracle)
    ensures start != 0
    ensures AfterTurns(w, b, oracle, 1).Again? ==> AfterTurns(w, b, oracle, 1).world.session.runtimeStartedAt == start
    ensures w.session.runtimeStartedAt == 0 ==> start == oracle(0).0.now || start == oracle(0).1.now
  {
    assert AfterTurns(w, b, oracle, 0) == Again(w);
    assert AfterTurns(w, b, oracle, 1) == TurnOf(DriverLoop(b, oracle), w, 0);
    TurnAnchors(w, b, oracle(0).0, oracle(0).1);
    start := if AfterTurns(w, b, oracle, 1).Again? then AfterTurns(w, b, oracle, 1).world.session.runtimeStartedAt
             else oracle(0).0.now;
  }

  predicate ReadsAfter(oracle: Oracle, n: nat, t: int) {
    oracle(n).0.now > t && oracle(n).1.now > t
  }

  ghost predicate Passes(oracle: Oracle, t: int) {
    exists n: nat :: n > 0 && ReadsAfter(oracle, n, t)
  }

  /** The clock passes every bound sooner or later. */
  ghost predicate GoesOnForEver(oracle: Oracle) {
    forall t: int :: Passes(oracle, t)
  }

  /** With a runtime budget that is set and a clock that goes on for ever the driver always ends, from every session:
      whatever the planner plans, under whatever ids and identities, and whatever the other budgets. */
  lemma RuntimeBudgetEnds(w: World, b: Budgets, oracle: Oracle)
    requires b.maxTotalRuntimeMS > 0 && Ticking(oracle) && GoesOnForEver(oracle)
    ensures Ends(w, b, oracle)
  {
    var start := FirstTurnAnchors(w, b, oracle);
    assert Passes(oracle, start + b.maxTotalRuntimeMS);
    var n: nat :| n > 0 && ReadsAfter(oracle, n, start + b.maxTotalRuntimeMS);
    LateEnds(w, b, oracle, 1, start, n);
  }

  // ---- clocks ----

  /** One reading a turn. */
  type Clock = nat -> int

  ghost predicate Readings(c: Clock) {
    forall n: nat :: c(n) != 0
  }

  /** All answers of a turn are given at its reading. */
  ghost predicate Clocked(oracle: Oracle, c: Clock) {
    forall n: nat :: oracle(n).0.now == c(n) && oracle(n).1.now == c(n)
  }

  /** Some turn comes later after the first than the runtime budget allows. */
  ghost predicate RunsOut(b: Budgets, c: Clock) {
    exists n: nat :: TooLate(b, c(0), c(n))
  }

  /** A session whose clock is not running yet starts it in the first turn. */
  lemma RunsOutEnds(w: World, b: Budgets, oracle: Oracle, c: Clock)
    requires w.session.runtimeStartedAt == 0 && Readings(c) && Clocked(oracle, c) && RunsOut(b, c)
    ensures Ends(w, b, oracle)
  {
    var n: nat :| TooLate(b, c(0), c(n));
    ClockedTicks(oracle, c);
    var start := FirstTurnAnchors(w, b, oracle);
    OutOfTime(b, oracle, c, n);
    LateEnds(w, b, oracle, 1, c(0), n);
  }

  lemma OutOfTime(b: Budgets, oracle: Oracle, c: Clock, n: nat)
    requires Clocked(oracle, c) && TooLate(b, c(0), c(n))
    ensures n > 0 && LateAt(b, c(0), oracle, n) && oracle(0).0.now == c(0) == oracle(0).1.now
  {
    assert oracle(n).0.now == c(n) && oracle(n).1.now == c(n);
  }

  lemma ClockedTicks(oracle: Oracle, c: Clock)
    requires Readings(c) && Clocked(oracle, c)
    ensures Ticking(oracle)
  {
    forall n: nat ensures oracle(n).0.now != 0 && oracle(n).1.now != 0 {
      assert c(n) != 0 && oracle(n).0.now == c(n);
    }
  }
}

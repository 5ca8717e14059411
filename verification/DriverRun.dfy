/** Whole runs of the session driver: when they end, and how many tool invocations they make. */
module DriverRun {
  import opened PlanModel
  import opened PlanOutcome
  import opened StepSelection
  import opened SessionKernel
  import opened DriverBudget

  /** The answers of the world, turn by turn: those for a first planning, and those for the rest of the turn. */
  type Oracle = nat -> (Answers, Answers)

  /** Turn `k` of a loop from state `v`. */
  ghost function TurnOf(step: (World, nat) -> Turn, v: World, k: nat): Turn {
    step(v, k)
  }

  /** The state after `n` turns of a loop, or the turn that ended it earlier. */
  ghost function Iterate(step: (World, nat) -> Turn, w: World, n: nat): Turn {
    if n == 0 then Again(w)
    else match Iterate(step, w, n - 1)
      case Again(v) => TurnOf(step, v, n - 1)
      case ended => ended
  }

  ghost function DriverLoop(b: Budgets, oracle: Oracle): (World, nat) -> Turn {
    (v: World, k: nat) => DriverTurn(v, b, oracle(k).0, oracle(k).1)
  }

  ghost function AfterTurns(w: World, b: Budgets, oracle: Oracle, n: nat): Turn {
    Iterate(DriverLoop(b, oracle), w, n)
  }

  // ---- what the planner owes ----

  /** In this turn, whatever may still become a plan has distinct step ids and names no plan that is stored by then,
      of whichever session. */
  ghost predicate GoodTurn(w: World, b: Budgets, opening: Answers, a: Answers) {
    if HasPlan(w.plans) then GoodAnswer(|w.plans|, Revision(w.plans), b, a)
    else GoodAnswer(|w.plans|, 0, b, opening) && GoodAnswer(|w.plans| + 1, 1, b, a)
  }

  /** The planner's answers are good wherever the run takes them. */
  ghost predicate GoodOracle(w: World, b: Budgets, oracle: Oracle) {
    forall n: nat :: AfterTurns(w, b, oracle, n).Again? ==>
      GoodTurn(AfterTurns(w, b, oracle, n).world, b, oracle(n).0, oracle(n).1)
  }

  ghost predicate Anonymous(steps: seq<Step>) {
    DistinctIDs(steps) && forall i :: 0 <= i < |steps| ==> steps[i].planID == 0
  }

  /** Planners that tell their steps apart and leave the identity to the store are good on every run. */
  lemma AnonymousPlannersAreGood(w: World, b: Budgets, oracle: Oracle)
    requires forall n: nat :: Anonymous(oracle(n).0.planned) && Anonymous(oracle(n).1.planned)
    ensures GoodOracle(w, b, oracle)
  {
    forall n: nat | AfterTurns(w, b, oracle, n).Again?
      ensures GoodTurn(AfterTurns(w, b, oracle, n).world, b, oracle(n).0, oracle(n).1)
    {
      assert Anonymous(oracle(n).0.planned) && Anonymous(oracle(n).1.planned);
    }
  }

  // ---- the measure ----

  /** A revision budget bounds planning only when it is positive; without steps to plan there is nothing to bound. */
  predicate PlanningBounded(b: Budgets) {
    b.maxPlanRevisions > 0 || b.maxSteps <= 0
  }

  function RevisionsLeft(w: World, b: Budgets): nat {
    if b.maxSteps <= 0 || b.maxPlanRevisions <= Revision(w.plans) then 0 else b.maxPlanRevisions - Revision(w.plans)
  }

  ghost predicate Smaller(v: World, w: World, b: Budgets) {
    || RevisionsLeft(v, b) < RevisionsLeft(w, b)
    || (RevisionsLeft(v, b) == RevisionsLeft(w, b) && Outstanding(v, b) < Outstanding(w, b))
  }

  lemma ResolveAdvances(w: World, b: Budgets, a: Answers)
    requires Ready(w) && w.session.pendingApproval.Some?
    ensures var t := ResolvePending(w, w.session.pendingApproval.value, b, a);
            Pays(w, t.world, b) && (t.Again? ==> Outstanding(t.world, b) < Outstanding(w, b))
  {
    var id := w.session.pendingApproval.value;
    if w.approvals[id].status.Approved? && ResumeDecision(w.approvals[id]).Some? {
      ResumePays(w, id, b, a);
    }
  }

  /** The three kinds of turn: it spends, it plans and may then spend, or it ends. */
  ghost predicate TurnPays(w: World, t: Turn, b: Budgets, opening: Answers, a: Answers) {
    || Advances(w, t, b, a)
    || (exists mid :: Replans(w, mid, b, opening) && Advances(mid, t, b, a))
    || (Pays(w, t.world, b) && !t.Again?)
  }

  lemma OpeningAdvances(w: World, b: Budgets, opening: Answers, a: Answers)
    requires Ready(w) && !HasPlan(w.plans) && w.session.pendingApproval.None?
    requires GoodAnswer(|w.plans|, 0, b, opening) && GoodAnswer(|w.plans| + 1, 1, b, a)
    ensures var (mid, fault) := CreatePlanFromPlanner(w, b, opening);
            if fault.None? then Replans(w, mid, b, opening) && Advances(mid, WorkOnPlan(mid, b, a), b, a) else Pays(w, mid, b)
  {
    PlanningReplans(w, b, opening);
    var (mid, fault) := CreatePlanFromPlanner(w, b, opening);
    if fault.None? {
      WorkAdvances(mid, b, a);
    }
  }

  /** What one turn costs. */
  lemma TurnAdvances(w: World, b: Budgets, opening: Answers, a: Answers)
    requires Ready(w) && GoodTurn(w, b, opening, a)
    ensures TurnPays(w, DriverTurn(w, b, opening, a), b, opening, a)
  {
    if opening.refused || Terminal(w.session.phase) || w.session.execution.ExecutionBlocked? {
    } else if w.session.pendingApproval.Some? {
      ResolveAdvances(w, b, a);
    } else if !HasPlan(w.plans) {
      OpeningAdvances(w, b, opening, a);
    } else {
      WorkAdvances(w, b, a);
    }
  }

  lemma AdvancesShrinks(w: World, t: Turn, b: Budgets, a: Answers)
    requires Advances(w, t, b, a) && PlanningBounded(b)
    ensures Ready(t.world) && (t.Again? ==> Smaller(t.world, w, b))
  {
  }

  lemma TurnPaysShrinks(w: World, t: Turn, b: Budgets, opening: Answers, a: Answers)
    requires TurnPays(w, t, b, opening, a) && PlanningBounded(b)
    ensures Ready(t.world) && (t.Again? ==> Smaller(t.world, w, b))
  {
    if Advances(w, t, b, a) {
      AdvancesShrinks(w, t, b, a);
    } else if exists mid :: Replans(w, mid, b, opening) && Advances(mid, t, b, a) {
      var mid :| Replans(w, mid, b, opening) && Advances(mid, t, b, a);
      AdvancesShrinks(mid, t, b, a);
    }
  }

  /** Every turn ends the run or makes the measure smaller, lexicographically: revisions left, then what the live
      plans and an awaited approval can still cost. */
  lemma TurnShrinks(w: World, b: Budgets, opening: Answers, a: Answers)
    requires Ready(w) && GoodTurn(w, b, opening, a) && PlanningBounded(b)
    ensures var t := DriverTurn(w, b, opening, a);
            Ready(t.world) && (t.Again? ==> Smaller(t.world, w, b))
  {
    TurnAdvances(w, b, opening, a);
    TurnPaysShrinks(w, DriverTurn(w, b, opening, a), b, opening, a);
  }

  // ---- whole runs ----

  type Condition = (World, nat) -> bool

  ghost predicate Holds(good: Condition, v: World, k: nat) {
    good(v, k)
  }

  ghost function GoodFor(b: Budgets, oracle: Oracle): Condition {
    (v: World, k: nat) => GoodTurn(v, b, oracle(k).0, oracle(k).1)
  }

  /** The condition holds at every turn the run takes. */
  ghost predicate GoodAlong(step: (World, nat) -> Turn, good: Condition, w: World) {
    forall n: nat :: Iterate(step, w, n).Again? ==> Holds(good, Iterate(step, w, n).world, n)
  }

  ghost predicate Shrinks(step: (World, nat) -> Turn, good: Condition, b: Budgets) {
    forall v, k: nat :: Ready(v) && Holds(good, v, k) ==>
      Ready(TurnOf(step, v, k).world) && (TurnOf(step, v, k).Again? ==> Smaller(TurnOf(step, v, k).world, v, b))
  }

  lemma {:induction false} StaysReady(step: (World, nat) -> Turn, good: Condition, w: World, b: Budgets, n: nat)
    requires Ready(w) && Shrinks(step, good, b) && GoodAlong(step, good, w)
    ensures Ready(Iterate(step, w, n).world)
  {
    if n > 0 {
      StaysReady(step, good, w, b, n - 1);
      assert Iterate(step, w, n - 1).Again? ==> Holds(good, Iterate(step, w, n - 1).world, n - 1);
    }
  }

  lemma NextIsSmaller(step: (World, nat) -> Turn, good: Condition, w: World, b: Budgets, n: nat)
    requires Ready(w) && Shrinks(step, good, b) && GoodAlong(step, good, w) && Iterate(step, w, n).Again?
    ensures var v := Iterate(step, w, n).world;
            && Iterate(step, w, n + 1) == TurnOf(step, v, n)
            && (TurnOf(step, v, n).Again? ==> Smaller(TurnOf(step, v, n).world, v, b))
  {
    StaysReady(step, good, w, b, n);
    assert Holds(good, Iterate(step, w, n).world, n);
  }

  lemma {:induction false} EndsFrom(step: (World, nat) -> Turn, good: Condition, w: World, b: Budgets, k: nat) returns (n: nat)
    requires Ready(w) && Shrinks(step, good, b) && GoodAlong(step, good, w) && Iterate(step, w, k).Again?
    ensures !Iterate(step, w, n).Again?
    decreases RevisionsLeft(Iterate(step, w, k).world, b), Outstanding(Iterate(step, w, k).world, b)
  {
    NextIsSmaller(step, good, w, b, k);
    if Iterate(step, w, k + 1).Again? {
      n := EndsFrom(step, good, w, b, k + 1);
    } else {
      n := k + 1;
    }
  }

  lemma DriverShrinks(b: Budgets, oracle: Oracle)
    requires PlanningBounded(b)
    ensures Shrinks(DriverLoop(b, oracle), GoodFor(b, oracle), b)
  {
    forall v, k: nat | Ready(v) && Holds(GoodFor(b, oracle), v, k)
      ensures var t := TurnOf(DriverLoop(b, oracle), v, k); Ready(t.world) && (t.Again? ==> Smaller(t.world, v, b))
    {
      TurnShrinks(v, b, oracle(k).0, oracle(k).1);
    }
  }

  lemma GoodOracleIsGoodAlong(w: World, b: Budgets, oracle: Oracle)
    requires GoodOracle(w, b, oracle)
    ensures GoodAlong(DriverLoop(b, oracle), GoodFor(b, oracle), w)
  {
    forall n: nat | Iterate(DriverLoop(b, oracle), w, n).Again?
      ensures Holds(GoodFor(b, oracle), Iterate(DriverLoop(b, oracle), w, n).world, n)
    {
      assert AfterTurns(w, b, oracle, n).Again?;
    }
  }

  /** The driver loop ends, whatever policy, tools, verifiers and clock answer, and whatever the planner plans with
      distinct ids and without naming a plan that is stored. */
  lemma DriverEnds(w: World, b: Budgets, oracle: Oracle) returns (n: nat)
    requires Ready(w) && GoodOracle(w, b, oracle) && PlanningBounded(b)
    ensures !AfterTurns(w, b, oracle, n).Again?
  {
    DriverShrinks(b, oracle);
    GoodOracleIsGoodAlong(w, b, oracle);
    n := EndsFrom(DriverLoop(b, oracle), GoodFor(b, oracle), w, b, 0);
  }

  // ---- how many tools are invoked ----

  ghost predicate Unused(steps: seq<Step>) {
    forall i :: 0 <= i < |steps| ==> steps[i].attempt >= 0
  }

  ghost predicate FreshPlanner(oracle: Oracle) {
    forall n: nat :: Unused(oracle(n).0.planned) && Unused(oracle(n).1.planned)
  }

  predicate Capped(b: Budgets) {
    b.maxRetriesPerStep > 0 && b.maxPlanRevisions > 0
  }

  function PlanCost(b: Budgets): nat {
    if b.maxSteps <= 0 || b.maxRetriesPerStep <= 0 then 0 else b.maxSteps * (b.maxRetriesPerStep + 1)
  }

  /** What a run may still cost: what is outstanding, and a full plan for every revision left. */
  ghost function Credit(w: World, b: Budgets): nat {
    Outstanding(w, b) + RevisionsLeft(w, b) * PlanCost(b)
  }

  lemma PlannedCostBounded(b: Budgets, a: Answers)
    requires Capped(b) && Unused(a.planned)
    ensures RemainingSteps(PlannedSteps(b, a), b) <= PlanCost(b)
  {
    var steps := PlannedSteps(b, a);
    PlannedCost(steps, b);
    if b.maxSteps > 0 {
      Product(|steps|, b.maxSteps, b.maxRetriesPerStep + 1);
    }
  }

  lemma Product(x: nat, y: nat, z: nat)
    requires x <= y
    ensures x * z <= y * z
  {
  }

  lemma OneMore(n: nat, cost: nat)
    ensures (n + 1) * cost == n * cost + cost
  {
  }

  lemma ReplansSpends(w: World, v: World, b: Budgets, a: Answers)
    requires Replans(w, v, b, a) && Capped(b) && Unused(a.planned)
    ensures |v.log| + Credit(v, b) <= |w.log| + Credit(w, b)
  {
    PlannedCostBounded(b, a);
    OneMore(RevisionsLeft(v, b), PlanCost(b));
  }

  lemma AdvancesSpends(w: World, t: Turn, b: Budgets, a: Answers)
    requires Advances(w, t, b, a) && Capped(b) && Unused(a.planned)
    ensures |t.world.log| + Credit(t.world, b) <= |w.log| + Credit(w, b)
  {
    if Replans(w, t.world, b, a) {
      ReplansSpends(w, t.world, b, a);
    }
  }

  lemma TurnPaysSpends(w: World, t: Turn, b: Budgets, opening: Answers, a: Answers)
    requires TurnPays(w, t, b, opening, a) && Capped(b) && Unused(opening.planned) && Unused(a.planned)
    ensures |t.world.log| + Credit(t.world, b) <= |w.log| + Credit(w, b)
  {
    if Advances(w, t, b, a) {
      AdvancesSpends(w, t, b, a);
    } else if exists mid :: Replans(w, mid, b, opening) && Advances(mid, t, b, a) {
      var mid :| Replans(w, mid, b, opening) && Advances(mid, t, b, a);
      ReplansSpends(w, mid, b, opening);
      AdvancesSpends(mid, t, b, a);
    }
  }

  /** Invocations made and credit left never grow together. */
  lemma TurnSpends(w: World, b: Budgets, opening: Answers, a: Answers)
    requires Ready(w) && GoodTurn(w, b, opening, a) && Capped(b) && Unused(opening.planned) && Unused(a.planned)
    ensures var v := DriverTurn(w, b, opening, a).world;
            |v.log| + Credit(v, b) <= |w.log| + Credit(w, b)
  {
    TurnAdvances(w, b, opening, a);
    TurnPaysSpends(w, DriverTurn(w, b, opening, a), b, opening, a);
  }

  ghost predicate SpendsCredit(step: (World, nat) -> Turn, good: Condition, b: Budgets) {
    forall v, k: nat :: Ready(v) && Holds(good, v, k) ==>
      |TurnOf(step, v, k).world.log| + Credit(TurnOf(step, v, k).world, b) <= |v.log| + Credit(v, b)
  }

  lemma SpendsOnce(step: (World, nat) -> Turn, good: Condition, v: World, b: Budgets, k: nat)
    requires SpendsCredit(step, good, b) && Ready(v) && Holds(good, v, k)
    ensures |TurnOf(step, v, k).world.log| + Credit(TurnOf(step, v, k).world, b) <= |v.log| + Credit(v, b)
  {
  }

  lemma {:induction false} IterateSpends(step: (World, nat) -> Turn, good: Condition, w: World, b: Budgets, n: nat)
    requires Ready(w) && Shrinks(step, good, b) && SpendsCredit(step, good, b) && GoodAlong(step, good, w)
    ensures var v := Iterate(step, w, n).world; |v.log| + Credit(v, b) <= |w.log| + Credit(w, b)
  {
    if n > 0 {
      IterateSpends(step, good, w, b, n - 1);
      StaysReady(step, good, w, b, n - 1);
      if Iterate(step, w, n - 1).Again? {
        SpendsOnce(step, good, Iterate(step, w, n - 1).world, b, n - 1);
      }
    }
  }

  lemma DriverSpends(b: Budgets, oracle: Oracle)
    requires FreshPlanner(oracle) && Capped(b)
    ensures SpendsCredit(DriverLoop(b, oracle), GoodFor(b, oracle), b)
  {
    forall v, k: nat | Ready(v) && Holds(GoodFor(b, oracle), v, k)
      ensures var t := TurnOf(DriverLoop(b, oracle), v, k); |t.world.log| + Credit(t.world, b) <= |v.log| + Credit(v, b)
    {
      TurnSpends(v, b, oracle(k).0, oracle(k).1);
    }
  }

  /** Along a whole run: what has been invoked plus the credit left never exceeds the credit at the start. */
  lemma RunSpends(w: World, b: Budgets, oracle: Oracle, n: nat)
    requires Ready(w) && GoodOracle(w, b, oracle) && FreshPlanner(oracle) && Capped(b)
    ensures var v := AfterTurns(w, b, oracle, n).world; |v.log| + Credit(v, b) <= |w.log| + Credit(w, b)
  {
    DriverShrinks(b, oracle);
    DriverSpends(b, oracle);
    GoodOracleIsGoodAlong(w, b, oracle);
    IterateSpends(DriverLoop(b, oracle), GoodFor(b, oracle), w, b, n);
  }

  /** A session without a plan that awaits nothing and is pinned to no plan of another session. */
  predicate Unplanned(w: World) {
    !HasPlan(w.plans) && PinnedAt(w) == |w.plans| && w.session.pendingApproval.None?
  }

  lemma FirstCredit(w: World, b: Budgets)
    requires Unplanned(w) && Capped(b) && b.maxSteps >= 0
    ensures Credit(w, b) == b.maxPlanRevisions * (b.maxSteps * (b.maxRetriesPerStep + 1))
  {
    assert LiveSum(w.plans, |w.plans|, b) == 0;
    if b.maxSteps == 0 {
      assert RevisionsLeft(w, b) == 0;
    }
  }

  /** From a session without a plan, one driver call invokes at most
      `MaxPlanRevisions * MaxSteps * (MaxRetriesPerStep + 1)` tools, however many turns it takes. */
  lemma InvocationsBounded(w: World, b: Budgets, oracle: Oracle, n: nat)
    requires Unplanned(w)
    requires GoodOracle(w, b, oracle) && FreshPlanner(oracle) && Capped(b) && b.maxSteps >= 0
    ensures |AfterTurns(w, b, oracle, n).world.log| <= |w.log| + b.maxPlanRevisions * (b.maxSteps * (b.maxRetriesPerStep + 1))
  {
    RunSpends(w, b, oracle, n);
    FirstCredit(w, b);
  }
}

/** A compiled program under the kernel, over whole runs: no node's tool runs before all steps of all its
    dependencies are completed. */
module ProgramRun {
  import opened PlanModel
  import opened SessionKernel
  import opened KernelOperations
  import opened KernelInvariants
  import opened KernelRuns
  import opened ProgramGraph
  import opened ProgramCompiler
  import opened ProgramTrack

  // ---- whole runs ----

  /** The steps as the plan with this id holds them. */
  function StoredPlan(steps: seq<Step>, planID: nat): (t: seq<Step>)
    ensures |t| == |steps|
    ensures forall i :: 0 <= i < |t| ==> t[i] == AnnotateStep(NormalizeStatus(steps[i]), planID)
  {
    AnnotateSteps(seq(|steps|, i requires 0 <= i < |steps| => NormalizeStatus(steps[i])), planID)
  }

  /** Stored as the plan with this id, these steps name it and are run in line. */
  ghost predicate InLineProgram(steps: seq<Step>, planID: nat) {
    InLinePlan(StoredPlan(steps, planID)) && forall i :: 0 <= i < |steps| ==> StoredPlan(steps, planID)[i].planID == planID
  }

  /** The plan of a compiled program, fresh in a fresh session, behind whatever plans are stored already. */
  ghost predicate ProgramStart(w: World, steps: seq<Step>) {
    && w.plans != [] && w.plans == CreatePlan(w.plans[..|w.plans|-1], steps)
    && w.approvals == [] && w.blocked == [] && w.log == []
    && w.session.pendingApproval.None? && w.session.blockedRuntime.None? && w.session.execution.Idle?
    && w.session.currentStep == "" && w.session.inFlightStep == "" && w.session.planRef == 0
  }

  lemma StartOnTrack(w: World, steps: seq<Step>)
    requires ProgramStart(w, steps) && InLineProgram(steps, |w.plans|)
    ensures Inv(w) && OnTrack(w, StoredPlan(steps, |w.plans|), 0)
  {
    var t := StoredPlan(steps, |w.plans|);
    assert LatestSteps(w.plans) == t;
    forall i | 0 <= i < |t| ensures t[i].stepID != "" {
      assert Untouched(t[i]);
    }
    if t != [] {
      assert Untouched(t[0]);
    }
  }

  ghost predicate ProgramRun(call: Call, w: World, ops: seq<Operation>) {
    ops == [] || (ProgramRun(call, w, ops[..|ops|-1]) && ProgramCall(After(call, w, ops[..|ops|-1]), ops[|ops|-1]))
  }

  ghost predicate Admitted(w: World, t: seq<Step>) {
    Inv(w) && SomewhereOn(w, t)
  }

  lemma CallStaysAdmitted(w: World, t: seq<Step>, b: Budgets, op: Operation)
    requires InLinePlan(t) && Admitted(w, t) && ProgramCall(w, op)
    ensures Admitted(Apply(w, b, op), t)
  {
    CallKeeps(w, b, op);
    if Halted(w) {
      HaltedStays(w, b, op);
    } else {
      var k: nat :| OnTrack(w, t, k);
      CallFollows(w, t, k, b, op);
    }
  }

  ghost predicate KeepsTrack(call: Call, t: seq<Step>) {
    forall w, op :: Admitted(w, t) && ProgramCall(w, op) ==> Admitted(CallOf(call, w, op), t)
  }

  lemma KernelKeepsTrack(b: Budgets, t: seq<Step>)
    requires InLinePlan(t)
    ensures KeepsTrack(Kernel(b), t)
  {
    forall w, op | Admitted(w, t) && ProgramCall(w, op) ensures Admitted(CallOf(Kernel(b), w, op), t) {
      CallStaysAdmitted(w, t, b, op);
    }
  }

  lemma {:induction false} RunStaysOnTrack(call: Call, w: World, t: seq<Step>, ops: seq<Operation>)
    requires KeepsTrack(call, t) && Admitted(w, t) && ProgramRun(call, w, ops)
    ensures Admitted(After(call, w, ops), t)
  {
    if ops != [] {
      RunStaysOnTrack(call, w, t, ops[..|ops|-1]);
    }
  }

  /** Every state reached: over for good, or completed steps in front, one step in the works, the rest untouched. */
  lemma ReachableOnTrack(w: World, steps: seq<Step>, b: Budgets, ops: seq<Operation>)
    requires ProgramStart(w, steps) && InLineProgram(steps, |w.plans|) && ProgramRun(Kernel(b), w, ops)
    ensures Admitted(RunOf(w, b, ops), StoredPlan(steps, |w.plans|))
  {
    StartOnTrack(w, steps);
    KernelKeepsTrack(b, StoredPlan(steps, |w.plans|));
    RunStaysOnTrack(Kernel(b), w, StoredPlan(steps, |w.plans|), ops);
  }

  lemma SpanIndex(v: World, u: World, t: seq<Step>, k: nat, j: nat) returns (i: nat)
    requires InvokesFront(v, u, t, k) && |v.log| <= j < |u.log|
    ensures k < |t| && k <= i < SpanEnd(t, k) && u.log[j].stepID == t[i].stepID
  {
    assert InSpan(u.log[j].stepID, t, k);
    i :| k <= i < SpanEnd(t, k) && t[i].stepID == u.log[j].stepID;
  }

  lemma InvokedInSpan(v: World, t: seq<Step>, b: Budgets, op: Operation, j: nat) returns (k: nat, i: nat)
    requires InLinePlan(t) && Admitted(v, t) && ProgramCall(v, op) && |v.log| <= j < |Apply(v, b, op).log|
    ensures OnTrack(v, t, k) && k < |t| && k <= i < SpanEnd(t, k) && Apply(v, b, op).log[j].stepID == t[i].stepID
  {
    if Halted(v) {
      HaltedStays(v, b, op);
    }
    k :| OnTrack(v, t, k);
    CallFollows(v, t, k, b, op);
    i := SpanIndex(v, Apply(v, b, op), t, k, j);
  }

  // ---- the steps of a node ----

  ghost predicate StoredCompleted(w: World, id: string) {
    exists i :: 0 <= i < |LatestSteps(w.plans)| && LatestSteps(w.plans)[i].stepID == id && LatestSteps(w.plans)[i].status.Completed?
  }

  function Concat(parts: seq<seq<Step>>): seq<Step> {
    if parts == [] then [] else Concat(parts[..|parts|-1]) + parts[|parts|-1]
  }

  /** Where the steps of part `m` begin. */
  function Offset(parts: seq<seq<Step>>, m: nat): nat
    requires m <= |parts|
  {
    |Concat(parts[..m])|
  }

  lemma {:induction false} PartStands(parts: seq<seq<Step>>, m: nat, j: nat)
    requires m < |parts| && j < |parts[m]|
    ensures Offset(parts, m) + j < |Concat(parts)| && Concat(parts)[Offset(parts, m) + j] == parts[m][j]
  {
    var n := |parts| - 1;
    if m < n {
      PartStands(parts[..n], m, j);
      assert parts[..n][..m] == parts[..m];
    }
  }

  lemma {:induction false} OffsetsGrow(parts: seq<seq<Step>>, e: nat, m: nat)
    requires e < m <= |parts|
    ensures Offset(parts, e) + |parts[e]| <= Offset(parts, m)
  {
    assert parts[..m][..m-1] == parts[..m-1];
    if e < m - 1 {
      OffsetsGrow(parts, e, m - 1);
    }
  }

  /** Which part a step belongs to. */
  lemma {:induction false} PartAt(parts: seq<seq<Step>>, i: nat) returns (m: nat, j: nat)
    requires i < |Concat(parts)|
    ensures m < |parts| && j < |parts[m]| && i == Offset(parts, m) + j && Concat(parts)[i] == parts[m][j]
  {
    var n := |parts| - 1;
    if i < |Concat(parts[..n])| {
      m, j := PartAt(parts[..n], i);
      assert parts[..n][..m] == parts[..m];
    } else {
      m, j := n, i - |Concat(parts[..n])|;
    }
  }

  /** Steps of different parts are of different aggregates. */
  ghost predicate Apart(parts: seq<seq<Step>>) {
    forall m: nat, j: nat, e: nat, l: nat :: m < |parts| && j < |parts[m]| && e < |parts| && l < |parts[e]| ==>
      (SameAggregate(parts[m][j], parts[e][l]) ==> m == e)
  }

  predicate SameRules(s: Step, t: Step) {
    && s.onFail == t.onFail && s.metadata.aggregateID == t.metadata.aggregateID
    && s.metadata.aggregateScope == t.metadata.aggregateScope && s.metadata.maxConcurrency == t.metadata.maxConcurrency
  }

  /** Steps of one part have their rules and their aggregate in common. */
  ghost predicate Alike(parts: seq<seq<Step>>) {
    forall m: nat, i: nat, j: nat :: m < |parts| && i < |parts[m]| && j < |parts[m]| ==> SameRules(parts[m][i], parts[m][j])
  }

  ghost function Parts(p: Program, order: seq<nat>): (parts: seq<seq<Step>>)
    requires OrderFits(p, order)
    ensures |parts| == |order| && forall m :: 0 <= m < |order| ==> parts[m] == ExpandNode(p, p.nodes[order[m]])
  {
    seq(|order|, m requires 0 <= m < |order| => ExpandNode(p, p.nodes[order[m]]))
  }

  lemma {:induction false} StepsAreParts(p: Program, order: seq<nat>)
    requires OrderFits(p, order)
    ensures StepsInOrder(p, order) == Concat(Parts(p, order))
  {
    if order != [] {
      var n := |order| - 1;
      StepsAreParts(p, order[..n]);
      assert Parts(p, order)[..n] == Parts(p, order[..n]);
    }
  }

  /** What the compiler writes into the steps of a node. */
  lemma PartIs(p: Program, node: Node, j: nat)
    requires Expands(node) && node.nodeID != "" && j < |ExpandNode(p, node)|
    ensures var s := ExpandNode(p, node)[j];
            && s.planID == 0 && s.status.Pending? && s.attempt == 0 && s.stepID != "" && s.metadata.retryNotBefore.None?
            && s.onFail == (if |node.resolution.targets| > 1 && TargetStrategy(node) == "continue"
                            then node.onFail.(strategy := "continue") else node.onFail)
            && s.metadata.aggregateID == (if |node.resolution.targets| > 1 then StepIDFor(p, node, None) else "")
            && s.metadata.aggregateScope == (if |node.resolution.targets| > 1 then TARGET_FANOUT else "")
            && s.metadata.maxConcurrency
               == (if |node.resolution.targets| > 1
                   then Some(EffectiveMaxConcurrency(node.maxConcurrency, |node.resolution.targets|)) else None)
  {
  }

  lemma NodeIDsTell(p: Program, node: Node, other: Node)
    requires StepIDFor(p, node, None) == StepIDFor(p, other, None)
    ensures node.nodeID == other.nodeID
  {
    if p.programID != "" {
      var n := |p.programID + "__"|;
      assert (p.programID + "__" + node.nodeID)[n..] == node.nodeID;
      assert (p.programID + "__" + other.nodeID)[n..] == other.nodeID;
    }
  }

  lemma NodesApart(p: Program, node: Node, other: Node, j: nat, l: nat)
    requires Expands(node) && Expands(other) && node.nodeID != "" && other.nodeID != ""
    requires j < |ExpandNode(p, node)| && l < |ExpandNode(p, other)|
    ensures SameAggregate(ExpandNode(p, node)[j], ExpandNode(p, other)[l]) ==> node.nodeID == other.nodeID
  {
    PartIs(p, node, j);
    PartIs(p, other, l);
    if StepIDFor(p, node, None) == StepIDFor(p, other, None) {
      NodeIDsTell(p, node, other);
    }
  }

  lemma NodeAlike(p: Program, node: Node, i: nat, j: nat)
    requires Expands(node) && node.nodeID != "" && i < |ExpandNode(p, node)| && j < |ExpandNode(p, node)|
    ensures SameRules(ExpandNode(p, node)[i], ExpandNode(p, node)[j])
  {
    PartIs(p, node, i);
    PartIs(p, node, j);
  }

  /** Steps of one aggregate are steps of one node, and have the node's rules. */
  lemma PartsApart(p: Program, order: seq<nat>)
    requires IDsValid(p.nodes) && OrderFits(p, order) && Distinct(order)
    ensures Apart(Parts(p, order)) && Alike(Parts(p, order))
  {
    var parts := Parts(p, order);
    forall m: nat, j: nat, e: nat, l: nat | m < |parts| && j < |parts[m]| && e < |parts| && l < |parts[e]|
      ensures SameAggregate(parts[m][j], parts[e][l]) ==> m == e
    {
      NodesApart(p, p.nodes[order[m]], p.nodes[order[e]], j, l);
    }
    forall m: nat, i: nat, j: nat | m < |parts| && i < |parts[m]| && j < |parts[m]| ensures SameRules(parts[m][i], parts[m][j]) {
      NodeAlike(p, p.nodes[order[m]], i, j);
    }
  }

  // ---- dependencies ----

  /** Where a dependency stands in a topological order. */
  lemma DependencyEarlier(g: Graph, order: seq<nat>, u: nat, d: nat) returns (e: nat, m: nat)
    requires IsTopological(g, order) && u < |g| && d in g[u]
    ensures e < m < |order| && order[m] == u && order[e] == d
  {
    CoversAll(order, |g|, u);
    m := IndexOf(order, u);
    assert d in g[order[m]] && d in order[..m];
    e := IndexOf(order[..m], d);
  }

  /** The step in front belongs to the part whose tool runs. */
  lemma FrontInPart(parts: seq<seq<Step>>, planID: nat, k: nat, m: nat, j: nat)
    requires Apart(parts) && m < |parts| && j < |parts[m]| && Offset(parts, m) + j < |Concat(parts)|
    requires k <= Offset(parts, m) + j < SpanEnd(StoredPlan(Concat(parts), planID), k)
    ensures k >= Offset(parts, m)
  {
    PartStands(parts, m, j);
    if k < Offset(parts, m) + j {
      assert SameAggregate(StoredPlan(Concat(parts), planID)[k], StoredPlan(Concat(parts), planID)[Offset(parts, m) + j]);
      var e, l := PartAt(parts, k);
      assert SameAggregate(parts[e][l], parts[m][j]);
    }
  }

  lemma StepIsAt(parts: seq<seq<Step>>, m: nat, jx: nat, i: nat)
    requires m < |parts| && jx < |parts[m]| && i < |Concat(parts)|
    requires DistinctIDs(Concat(parts)) && parts[m][jx].stepID == Concat(parts)[i].stepID
    ensures i == Offset(parts, m) + jx
  {
    PartStands(parts, m, jx);
    SameStep(Concat(parts), Offset(parts, m) + jx, i);
  }

  /** In a run that is on the track: while a step of part `m` may run, all steps of earlier parts are completed. */
  lemma EarlierPartCompleted(w: World, parts: seq<seq<Step>>, planID: nat, k: nat, i: nat, e: nat, m: nat, jx: nat, jy: nat)
    requires Apart(parts) && DistinctIDs(Concat(parts))
    requires OnTrack(w, StoredPlan(Concat(parts), planID), k) && k <= i < |Concat(parts)| && i < SpanEnd(StoredPlan(Concat(parts), planID), k)
    requires e < m < |parts| && jx < |parts[m]| && jy < |parts[e]| && parts[m][jx].stepID == Concat(parts)[i].stepID
    ensures StoredCompleted(w, parts[e][jy].stepID)
  {
    StepIsAt(parts, m, jx, i);
    FrontInPart(parts, planID, k, m, jx);
    OffsetsGrow(parts, e, m);
    PartStands(parts, e, jy);
    BeforeFront(w, StoredPlan(Concat(parts), planID), k, Offset(parts, e) + jy);
  }

  lemma BeforeFront(w: World, t: seq<Step>, k: nat, y: nat)
    requires OnTrack(w, t, k) && y < k
    ensures StoredCompleted(w, t[y].stepID)
  {
    assert Kept(LatestSteps(w.plans)[y], t[y]);
    assert LatestSteps(w.plans)[y].stepID == t[y].stepID;
  }

  /** While a step of node `u` may run, every step of every node it depends on is completed. */
  lemma DependenciesCompleted(p: Program, order: seq<nat>, planID: nat, v: World, k: nat, i: nat, u: nat, x: Step, d: nat, y: Step)
    requires Valid(p.nodes) && IsTopological(GraphOf(p.nodes), order) && OrderFits(p, order) && DistinctIDs(StepsInOrder(p, order))
    requires OnTrack(v, StoredPlan(StepsInOrder(p, order), planID), k) && k <= i < |StepsInOrder(p, order)|
    requires i < SpanEnd(StoredPlan(StepsInOrder(p, order), planID), k)
    requires u < |p.nodes| && d in GraphOf(p.nodes)[u] && Expands(p.nodes[u]) && Expands(p.nodes[d])
    requires x in ExpandNode(p, p.nodes[u]) && x.stepID == StepsInOrder(p, order)[i].stepID && y in ExpandNode(p, p.nodes[d])
    ensures StoredCompleted(v, y.stepID)
  {
    var parts := Parts(p, order);
    StepsAreParts(p, order);
    PartsApart(p, order);
    var e, m := DependencyEarlier(GraphOf(p.nodes), order, u, d);
    var jx :| 0 <= jx < |parts[m]| && parts[m][jx] == x;
    var jy :| 0 <= jy < |parts[e]| && parts[e][jy] == y;
    EarlierPartCompleted(v, parts, planID, k, i, e, m, jx, jy);
  }

  lemma InLineIsDistinct(steps: seq<Step>, planID: nat)
    requires InLineProgram(steps, planID)
    ensures DistinctIDs(steps)
  {
    forall i, j | 0 <= i < j < |steps| ensures steps[i].stepID != steps[j].stepID {
      assert StoredPlan(steps, planID)[i].stepID != StoredPlan(steps, planID)[j].stepID;
    }
  }

  /** End to end: when a tool runs for a step of node `u`, every step of every node `u` depends on is completed. */
  lemma DependenciesCompleteFirst(p: Program, order: seq<nat>, w: World, b: Budgets, ops: seq<Operation>, op: Operation,
                                  j: nat, u: nat, x: Step, d: nat, y: Step)
    requires Valid(p.nodes) && IsTopological(GraphOf(p.nodes), order) && OrderFits(p, order)
    requires ProgramStart(w, StepsInOrder(p, order)) && InLineProgram(StepsInOrder(p, order), |w.plans|)
    requires ProgramRun(Kernel(b), w, ops) && ProgramCall(RunOf(w, b, ops), op)
    requires |RunOf(w, b, ops).log| <= j < |Apply(RunOf(w, b, ops), b, op).log|
    requires u < |p.nodes| && d in GraphOf(p.nodes)[u] && Expands(p.nodes[u]) && Expands(p.nodes[d])
    requires x in ExpandNode(p, p.nodes[u]) && x.stepID == Apply(RunOf(w, b, ops), b, op).log[j].stepID
    requires y in ExpandNode(p, p.nodes[d])
    ensures StoredCompleted(RunOf(w, b, ops), y.stepID)
  {
    var steps := StepsInOrder(p, order);
    ReachableOnTrack(w, steps, b, ops);
    var k, i := InvokedInSpan(RunOf(w, b, ops), StoredPlan(steps, |w.plans|), b, op, j);
    InLineIsDistinct(steps, |w.plans|);
    DependenciesCompleted(p, order, |w.plans|, RunOf(w, b, ops), k, i, u, x, d, y);
  }
}

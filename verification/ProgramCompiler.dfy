/** The two compilers from programs to ordered work: one repeatedly takes the ready node declared
    first, the other takes ready nodes first come, first served. */
module ProgramCompiler {
  import opened ProgramGraph
  import opened Kahn
  import opened PlanModel

  /** What asking for a node's targets comes to. */
  datatype Resolution = Targets(targets: seq<Target>) | Unresolvable

  datatype Node = Node(
    nodeID: string, title: string, dependsOn: seq<string>, toolName: string, onFail: OnFail,
    resolution: Resolution, onPartialFailure: string, maxConcurrency: int,
    verifyScope: string, hasVerify: bool, bindingsCompile: bool)

  datatype Program = Program(programID: string, nodes: seq<Node>, entryNodes: seq<string>)

  datatype CompileError =
    MissingNodeID | DuplicateNodeID | EntryNodeNotFound | DependencyNotFound | CycleDetected | ExpansionFailed

  // ---- validity of the declarations ----

  ghost predicate IDsValid(nodes: seq<Node>) {
    && (forall i :: 0 <= i < |nodes| ==> nodes[i].nodeID != "")
    && (forall i, j :: 0 <= i < j < |nodes| ==> nodes[i].nodeID != nodes[j].nodeID)
  }

  ghost predicate Declared(nodes: seq<Node>, id: string) {
    exists i :: 0 <= i < |nodes| && nodes[i].nodeID == id
  }

  ghost predicate EntriesDeclared(p: Program) {
    forall k :: 0 <= k < |p.entryNodes| ==> Declared(p.nodes, p.entryNodes[k])
  }

  ghost predicate DependenciesDeclared(nodes: seq<Node>) {
    forall v, k :: 0 <= v < |nodes| && 0 <= k < |nodes[v].dependsOn| ==> Declared(nodes, nodes[v].dependsOn[k])
  }

  ghost predicate Valid(nodes: seq<Node>) {
    IDsValid(nodes) && DependenciesDeclared(nodes)
  }

  ghost function NodeIndex(nodes: seq<Node>, id: string): (i: nat)
    requires Declared(nodes, id)
    ensures i < |nodes| && nodes[i].nodeID == id
  {
    var i :| 0 <= i < |nodes| && nodes[i].nodeID == id; i
  }

  /** The dependency graph the declarations spell out. */
  ghost function GraphOf(nodes: seq<Node>): (g: Graph)
    requires Valid(nodes)
    ensures WellFormed(g) && |g| == |nodes|
  {
    seq(|nodes|, v requires 0 <= v < |nodes| =>
      seq(|nodes[v].dependsOn|, k requires 0 <= k < |nodes[v].dependsOn| => NodeIndex(nodes, nodes[v].dependsOn[k])))
  }

  ghost predicate Acyclic(nodes: seq<Node>)
    requires Valid(nodes)
  {
    !HasCycle(GraphOf(nodes))
  }

  ghost predicate IsIndex(index: map<string, nat>, nodes: seq<Node>) {
    && (forall i :: 0 <= i < |nodes| ==> nodes[i].nodeID in index && index[nodes[i].nodeID] == i)
    && (forall id :: id in index ==> index[id] < |nodes| && nodes[index[id]].nodeID == id)
  }

  method IndexNodes(nodes: seq<Node>) returns (error: Option<CompileError>, index: map<string, nat>)
    ensures error.None? <==> IDsValid(nodes)
    ensures error.None? ==> IsIndex(index, nodes)
    ensures error == Some(MissingNodeID) ==>
              exists i :: 0 <= i < |nodes| && nodes[i].nodeID == "" && IDsValid(nodes[..i])
    ensures error == Some(DuplicateNodeID) ==>
              exists i :: 0 <= i < |nodes| && nodes[i].nodeID != "" && Declared(nodes[..i], nodes[i].nodeID) && IDsValid(nodes[..i])
    ensures error.Some? ==> error.value.MissingNodeID? || error.value.DuplicateNodeID?
  {
    index := map[];
    for i := 0 to |nodes|
      invariant IDsValid(nodes[..i]) && IsIndex(index, nodes[..i])
    {
      var id := nodes[i].nodeID;
      if id == "" {
        return Some(MissingNodeID), index;
      }
      if id in index {
        assert nodes[..i][index[id]].nodeID == id;
        return Some(DuplicateNodeID), index;
      }
      index := index[id := i];
    }
    assert nodes[..|nodes|] == nodes;
    return None, index;
  }

  method ResolveDependencies(nodes: seq<Node>, index: map<string, nat>) returns (error: Option<CompileError>, g: Graph)
    requires IDsValid(nodes) && IsIndex(index, nodes)
    ensures error.None? <==> DependenciesDeclared(nodes)
    ensures error.Some? ==> error.value.DependencyNotFound?
    ensures error.None? ==> g == GraphOf(nodes)
  {
    g := [];
    for v := 0 to |nodes|
      invariant |g| == v
      invariant forall w, k :: 0 <= w < v && 0 <= k < |nodes[w].dependsOn| ==> Declared(nodes, nodes[w].dependsOn[k])
      invariant forall w :: 0 <= w < v ==> |g[w]| == |nodes[w].dependsOn|
      invariant forall w, k :: 0 <= w < v && 0 <= k < |nodes[w].dependsOn| ==>
                  Declared(nodes, nodes[w].dependsOn[k]) && g[w][k] == NodeIndex(nodes, nodes[w].dependsOn[k])
    {
      var deps: seq<nat> := [];
      for k := 0 to |nodes[v].dependsOn|
        invariant |deps| == k
        invariant forall m :: 0 <= m < k ==>
                    Declared(nodes, nodes[v].dependsOn[m]) && deps[m] == NodeIndex(nodes, nodes[v].dependsOn[m])
      {
        var id := nodes[v].dependsOn[k];
        if id !in index {
          return Some(DependencyNotFound), g;
        }
        assert nodes[index[id]].nodeID == id;
        deps := deps + [index[id]];
      }
      g := g + [deps];
    }
    error := None;
    assert DependenciesDeclared(nodes);
    forall v | 0 <= v < |nodes| ensures g[v] == GraphOf(nodes)[v] { }
  }

  // ---- expanding one node into steps ----

  function StepIDFor(p: Program, node: Node, target: Option<Target>): string {
    var base := if p.programID != "" then p.programID + "__" + node.nodeID else node.nodeID;
    if target.None? || target.value.targetID == "" then base else base + "__" + target.value.targetID
  }

  function EffectiveMaxConcurrency(requested: int, count: nat): int {
    if count == 0 then 0
    else if requested <= 0 || requested > count then count
    else requested
  }

  /** What is to become of the other targets when one fails: to abort, unless the node says otherwise. */
  function TargetStrategy(node: Node): string {
    if node.onPartialFailure == "" then "abort" else node.onPartialFailure
  }

  function TitleOf(node: Node): string {
    if node.title != "" then node.title else if node.toolName != "" then node.toolName else node.nodeID
  }

  /** The scope a node's steps are verified on: a node with company is verified as a whole where it asks for its step. */
  function CompiledScope(scope: string, total: nat): string {
    if total <= 1 then if scope == "" then "step" else scope
    else if scope == "" || scope == "target" then "target"
    else if scope == "step" || scope == "aggregate" then "aggregate"
    else scope
  }

  function StepFor(p: Program, node: Node, target: Option<Target>, total: nat): Step {
    var fanout := total > 1;
    var onFail := if fanout && TargetStrategy(node) == "continue" then node.onFail.(strategy := "continue") else node.onFail;
    var limit := EffectiveMaxConcurrency(node.maxConcurrency, total);
    Step(0, StepIDFor(p, node, target), node.toolName, onFail, Pending, 0, "",
         Metadata(
           if fanout then StepIDFor(p, node, None) else "",
           if fanout then TARGET_FANOUT else "",
           if fanout then total else 0,
           if fanout && limit > 0 then Some(limit) else None,
           if target.Some? then target.value else Target("", ""),
           CompiledScope(node.verifyScope, total) == "aggregate",
           fanout && CompiledScope(node.verifyScope, total) == "aggregate" && node.hasVerify,
           None,
           Labels(p.programID, node.nodeID, if fanout then TitleOf(node) else "", if fanout then TargetStrategy(node) else "")))
  }

  predicate Expands(node: Node) {
    node.resolution.Targets? && node.bindingsCompile
  }

  function ExpandNode(p: Program, node: Node): (steps: seq<Step>)
    requires Expands(node)
    ensures |steps| >= 1
    ensures forall k :: 0 <= k < |steps| ==> steps[k].status.Pending? && steps[k].attempt == 0
  {
    var targets := node.resolution.targets;
    if targets == [] then [StepFor(p, node, None, 0)]
    else seq(|targets|, i requires 0 <= i < |targets| => StepFor(p, node, Some(targets[i]), |targets|))
  }

  ghost predicate AllExpand(nodes: seq<Node>) {
    forall v :: 0 <= v < |nodes| ==> Expands(nodes[v])
  }

  ghost predicate OrderFits(p: Program, order: seq<nat>) {
    forall i :: 0 <= i < |order| ==> order[i] < |p.nodes| && Expands(p.nodes[order[i]])
  }

  /** The steps of the nodes of `order`, node after node. */
  ghost function StepsInOrder(p: Program, order: seq<nat>): (steps: seq<Step>)
    requires OrderFits(p, order)
    ensures forall k :: 0 <= k < |steps| ==> steps[k].status.Pending? && steps[k].attempt == 0
  {
    if order == [] then [] else StepsInOrder(p, order[..|order|-1]) + ExpandNode(p, p.nodes[order[|order|-1]])
  }

  // ---- what a compiled program holds ----

  /** How many steps a node has: one for every target, or one if it has none. */
  function StepCount(node: Node): (n: nat)
    requires node.resolution.Targets?
    ensures n >= 1
  {
    if node.resolution.targets == [] then 1 else |node.resolution.targets|
  }

  /** Where the steps of the node at `m` begin: behind those of the nodes before it. */
  function StepsBefore(p: Program, order: seq<nat>, m: nat): nat
    requires OrderFits(p, order) && m <= |order|
  {
    if m == 0 then 0 else StepsBefore(p, order, m - 1) + StepCount(p.nodes[order[m-1]])
  }

  /** The node's id, behind the program's if it has one. */
  predicate CalledAfter(id: string, p: Program, node: Node) {
    id == (if p.programID == "" then node.nodeID else p.programID + "__" + node.nodeID)
  }

  /** Step `i` of the node: for its target `i`, in its id and its metadata, if it has targets, with the node's own tool
      and not started. It goes on past a failure only if it has company and the node says so. */
  ghost predicate IsStepOf(s: Step, p: Program, node: Node, i: nat)
    requires node.resolution.Targets?
  {
    var targets := node.resolution.targets;
    && i < StepCount(node)
    && s.toolName == node.toolName && s.status.Pending? && s.attempt == 0 && s.planID == 0 && s.reason == ""
    && s.metadata.retryNotBefore.None?
    && (if targets == [] then s.metadata.target == Target("", "") else s.metadata.target == targets[i])
    && (exists own :: CalledAfter(own, p, node)
          && s.stepID == (if targets == [] || targets[i].targetID == "" then own else own + "__" + targets[i].targetID))
    && s.onFail.maxRetries == node.onFail.maxRetries && s.onFail.backoffMS == node.onFail.backoffMS
    && s.onFail.strategy == (if |targets| > 1 && node.onPartialFailure == "continue" then "continue" else node.onFail.strategy)
    && s.metadata.verifyAggregate == (node.verifyScope == "aggregate" || (|targets| > 1 && node.verifyScope == "step"))
    && s.metadata.labels.programID == p.programID && s.metadata.labels.nodeID == node.nodeID
    && InCompany(s, p, node)
  }

  /** The steps of a node with several targets make up one aggregate, called as the node, that runs as many at a time as
      the node asks for, or all; a single step is of none. */
  ghost predicate InCompany(s: Step, p: Program, node: Node)
    requires node.resolution.Targets?
  {
    var n := |node.resolution.targets|;
    if n > 1 then
      && CalledAfter(s.metadata.aggregateID, p, node) && s.metadata.aggregateScope == "target_fanout"
      && s.metadata.aggregateExpected == n
      && s.metadata.maxConcurrency == Some(if 0 < node.maxConcurrency <= n then node.maxConcurrency else n)
      && s.metadata.aggregateVerify == (s.metadata.verifyAggregate && node.hasVerify)
      && s.metadata.labels.title == (if node.title != "" then node.title else if node.toolName != "" then node.toolName else node.nodeID)
      && s.metadata.labels.strategy == (if node.onPartialFailure == "" then "abort" else node.onPartialFailure)
    else
      && s.metadata.aggregateID == "" && s.metadata.aggregateScope == "" && s.metadata.maxConcurrency.None?
      && !s.metadata.aggregateVerify
  }

  /** Step `i` of the node at `m` is where it belongs. */
  ghost predicate Placed(p: Program, order: seq<nat>, steps: seq<Step>, m: nat, i: nat)
    requires OrderFits(p, order) && m < |order|
  {
    && StepsBefore(p, order, m) + i < |steps|
    && IsStepOf(steps[StepsBefore(p, order, m) + i], p, p.nodes[order[m]], i)
  }

  /** The steps of all nodes in this order, those of one node in the order of its targets, and nothing else. */
  ghost predicate Compiled(p: Program, order: seq<nat>, steps: seq<Step>)
    requires OrderFits(p, order)
  {
    && |steps| == StepsBefore(p, order, |order|)
    && forall m: nat, i: nat :: m < |order| && i < StepCount(p.nodes[order[m]]) ==> Placed(p, order, steps, m, i)
  }

  lemma ExpandedInto(p: Program, node: Node, i: nat)
    requires Expands(node) && i < StepCount(node)
    ensures |ExpandNode(p, node)| == StepCount(node) && IsStepOf(ExpandNode(p, node)[i], p, node, i)
  {
    var own := StepIDFor(p, node, None);
    assert CalledAfter(own, p, node);
  }

  lemma {:induction false} BeforeFront(p: Program, order: seq<nat>, m: nat)
    requires OrderFits(p, order) && order != [] && m < |order|
    ensures StepsBefore(p, order[..|order|-1], m) == StepsBefore(p, order, m)
  {
    if m > 0 {
      BeforeFront(p, order, m - 1);
    }
  }

  lemma LengthGrows(p: Program, order: seq<nat>, steps: seq<Step>)
    requires OrderFits(p, order) && order != []
    requires |steps| == StepsBefore(p, order[..|order|-1], |order| - 1)
    ensures var node := p.nodes[order[|order|-1]];
            && |steps + ExpandNode(p, node)| == StepsBefore(p, order, |order|)
            && StepsBefore(p, order, |order| - 1) == |steps|
  {
    BeforeFront(p, order, |order| - 1);
    ExpandedInto(p, p.nodes[order[|order|-1]], 0);
  }

  /** A step of an earlier node stays where it is. */
  lemma PlacedStays(p: Program, order: seq<nat>, steps: seq<Step>, more: seq<Step>, m: nat, i: nat)
    requires OrderFits(p, order) && m < |order| - 1 && steps <= more && Placed(p, order[..|order|-1], steps, m, i)
    ensures Placed(p, order, more, m, i)
  {
    BeforeFront(p, order, m);
    assert order[..|order|-1][m] == order[m];
  }

  /** The steps of the last node come last. */
  lemma PlacedLast(p: Program, order: seq<nat>, steps: seq<Step>, i: nat)
    requires OrderFits(p, order) && order != [] && StepsBefore(p, order, |order| - 1) == |steps|
    requires i < StepCount(p.nodes[order[|order|-1]])
    ensures Placed(p, order, steps + ExpandNode(p, p.nodes[order[|order|-1]]), |order| - 1, i)
  {
    ExpandedInto(p, p.nodes[order[|order|-1]], i);
    PlacedBehind(p, order, steps, ExpandNode(p, p.nodes[order[|order|-1]]), i);
  }

  lemma PlacedBehind(p: Program, order: seq<nat>, steps: seq<Step>, expanded: seq<Step>, i: nat)
    requires OrderFits(p, order) && order != [] && StepsBefore(p, order, |order| - 1) == |steps|
    requires i < |expanded| && IsStepOf(expanded[i], p, p.nodes[order[|order|-1]], i)
    ensures Placed(p, order, steps + expanded, |order| - 1, i)
  {
  }

  lemma {:induction false} CompiledIs(p: Program, order: seq<nat>)
    requires OrderFits(p, order)
    ensures Compiled(p, order, StepsInOrder(p, order))
  {
    if order != [] {
      var n := |order| - 1;
      var front := StepsInOrder(p, order[..n]);
      CompiledIs(p, order[..n]);
      LengthGrows(p, order, front);
      var steps := StepsInOrder(p, order);
      forall m: nat, i: nat | m < |order| && i < StepCount(p.nodes[order[m]]) ensures Placed(p, order, steps, m, i) {
        if m < n {
          assert order[..n][m] == order[m];
          PlacedStays(p, order, front, steps, m, i);
        } else {
          PlacedLast(p, order, front, i);
        }
      }
    }
  }

  // ---- the compiler that always takes the ready node declared first ----

  function InsertByOrder(sorted: seq<nat>, v: nat): seq<nat> {
    if sorted == [] || v < sorted[0] then [v] + sorted else [sorted[0]] + InsertByOrder(sorted[1..], v)
  }

  function SortByOrder(s: seq<nat>): seq<nat> {
    if s == [] then [] else InsertByOrder(SortByOrder(s[1..]), s[0])
  }

  ghost predicate Ascending(s: seq<nat>) {
    forall i, j :: 0 <= i < j < |s| ==> s[i] < s[j]
  }

  lemma {:induction false} InsertKeepsAscending(s: seq<nat>, v: nat)
    requires Ascending(s) && v !in s
    ensures Ascending(InsertByOrder(s, v))
    ensures forall x :: x in InsertByOrder(s, v) <==> x == v || x in s
  {
    if s == [] || v < s[0] {
    } else {
      var tail := InsertByOrder(s[1..], v);
      InsertKeepsAscending(s[1..], v);
      assert forall x :: x in s <==> x == s[0] || x in s[1..];
      forall j | 0 <= j < |tail| ensures s[0] < tail[j] {
        assert tail[j] in tail;
      }
    }
  }

  lemma {:induction false} SortAscends(s: seq<nat>)
    requires Distinct(s)
    ensures Ascending(SortByOrder(s))
    ensures forall x :: x in SortByOrder(s) <==> x in s
  {
    if s != [] {
      SortAscends(s[1..]);
      InsertKeepsAscending(SortByOrder(s[1..]), s[0]);
      assert forall x :: x in s <==> x == s[0] || x in s[1..];
    }
  }

  lemma JoinDistinct(ready: seq<nat>, released: seq<nat>)
    requires Distinct(ready) && |ready| > 0 && Distinct(released)
    requires forall v :: v in released ==> v !in ready
    ensures Distinct(ready[1..] + released)
  {
    var rest := ready[1..] + released;
    forall i, j | 0 <= i < j < |rest| ensures rest[i] != rest[j] {
      if i < |ready| - 1 <= j {
        assert rest[i] == ready[i+1] && rest[i] in ready;
        assert rest[j] in released;
      }
    }
  }

  /** In-degrees and work list agree with what has been emitted. */
  ghost predicate Tracks(g: Graph, done: seq<nat>, indegree: seq<int>, work: seq<nat>) {
    && IsPartialOrder(g, done)
    && |indegree| == |g| && (forall v :: 0 <= v < |g| ==> indegree[v] == Outside(g[v], done))
    && Distinct(work) && (forall v: nat :: v in work <==> Available(g, done, v))
  }

  /** Emitting the head of the work list and queueing what that released keeps the books straight. */
  lemma TracksStep(g: Graph, done: seq<nat>, indegree: seq<int>, work: seq<nat>, next: seq<int>, released: seq<nat>)
    requires Tracks(g, done, indegree, work) && |work| > 0
    requires |next| == |g| && forall v :: 0 <= v < |g| ==> next[v] == Outside(g[v], done + [work[0]])
    requires Distinct(released)
    requires forall v: nat :: v in released <==> Available(g, done + [work[0]], v) && !Available(g, done, v)
    ensures |done| < |g|
    ensures Tracks(g, done + [work[0]], next, work[1..] + released)
  {
    assert work[0] in work;
    RoomLeft(g, done, work[0]);
    JoinDistinct(work, released);
    assert forall v :: v in work <==> v == work[0] || v in work[1..];
    forall v: nat ensures v in work[1..] + released <==> Available(g, done + [work[0]], v) {
      ReadyAfter(g, done, work[0], v);
    }
  }

  lemma TracksSorted(g: Graph, done: seq<nat>, indegree: seq<int>, work: seq<nat>)
    requires Tracks(g, done, indegree, work)
    ensures Tracks(g, done, indegree, SortByOrder(work)) && Ascending(SortByOrder(work))
  {
    SortAscends(work);
  }

  lemma TracksStart(g: Graph, indegree: seq<int>, roots: seq<nat>)
    requires |indegree| == |g| && forall v :: 0 <= v < |g| ==> indegree[v] == Outside(g[v], [])
    requires Ascending(roots) && forall v: nat :: v in roots <==> Available(g, [], v)
    ensures Tracks(g, [], indegree, roots)
  {
  }

  /** When the work list is empty, all nodes are out exactly if the graph has no cycle. */
  lemma TracksEnd(g: Graph, done: seq<nat>, indegree: seq<int>)
    requires WellFormed(g) && Tracks(g, done, indegree, [])
    ensures |done| == |g| <==> !HasCycle(g)
    ensures |done| == |g| ==> IsTopological(g, done) && forall v :: 0 <= v < |g| ==> v in done
  {
    assert Stuck(g, done) by {
      forall v: nat ensures !Available(g, done, v) {
        assert v !in [];
      }
    }
    RunDry(g, done);
    if |done| == |g| {
      forall v | 0 <= v < |g| ensures v in done {
        CoversAll(done, |g|, v);
      }
    }
  }

  method CheckProgram(p: Program) returns (error: Option<CompileError>, g: Graph)
    ensures error.None? <==> Valid(p.nodes) && EntriesDeclared(p)
    ensures error.None? ==> g == GraphOf(p.nodes)
    ensures error.Some? <==> !IDsValid(p.nodes) || !EntriesDeclared(p) || !DependenciesDeclared(p.nodes)
    ensures !IDsValid(p.nodes) ==> error == Some(MissingNodeID) || error == Some(DuplicateNodeID)
    ensures IDsValid(p.nodes) && !EntriesDeclared(p) ==> error == Some(EntryNodeNotFound)
    ensures IDsValid(p.nodes) && EntriesDeclared(p) && !DependenciesDeclared(p.nodes) ==> error == Some(DependencyNotFound)
  {
    g := [];
    var index;
    error, index := IndexNodes(p.nodes);
    if error.Some? {
      return;
    }
    for k := 0 to |p.entryNodes|
      invariant forall m :: 0 <= m < k ==> Declared(p.nodes, p.entryNodes[m])
    {
      if p.entryNodes[k] !in index {
        return Some(EntryNodeNotFound), g;
      }
      assert p.nodes[index[p.entryNodes[k]]].nodeID == p.entryNodes[k];
    }
    error, g := ResolveDependencies(p.nodes, index);
  }

  method StepsFromProgram(p: Program) returns (r: Result<seq<Step>, CompileError>, ghost order: seq<nat>)
    ensures p.nodes == [] ==> r == Ok([])
    ensures p.nodes != [] && !IDsValid(p.nodes) ==> r == Err(MissingNodeID) || r == Err(DuplicateNodeID)
    ensures p.nodes != [] && IDsValid(p.nodes) && !EntriesDeclared(p) ==> r == Err(EntryNodeNotFound)
    ensures p.nodes != [] && IDsValid(p.nodes) && EntriesDeclared(p) && !DependenciesDeclared(p.nodes) ==>
              r == Err(DependencyNotFound)
    ensures p.nodes != [] && Valid(p.nodes) && EntriesDeclared(p) ==>
              && (r.Ok? <==> Acyclic(p.nodes) && AllExpand(p.nodes))
              && (r == Err(CycleDetected) ==> !Acyclic(p.nodes))
              && (r.Err? ==> r == Err(CycleDetected) || (r == Err(ExpansionFailed) && !AllExpand(p.nodes)))
              && (r.Ok? ==> IsLeastTopological(GraphOf(p.nodes), order)
                            && OrderFits(p, order) && Compiled(p, order, r.value) && r.value == StepsInOrder(p, order))
  {
    order := [];
    if |p.nodes| == 0 {
      return Ok([]), order;
    }
    var error, g := CheckProgram(p);
    if error.Some? {
      return Err(error.value), order;
    }
    var dependents := BuildDependents(g);
    var indegree, ready := Roots(g);
    TracksStart(g, indegree, ready);
    var steps: seq<Step>, processed := [], 0;
    while |ready| > 0
      invariant Tracks(g, order, indegree, ready) && Ascending(ready)
      invariant Greedy(g, order) && processed == |order|
      invariant OrderFits(p, order) && steps == StepsInOrder(p, order)
      decreases |g| - |order|
    {
      var u := ready[0];
      assert u in ready;
      processed := processed + 1;
      if !Expands(p.nodes[u]) {
        return Err(ExpansionFailed), order;
      }
      steps := steps + ExpandNode(p, p.nodes[u]);
      var next, released := ReleaseDependents(g, order, u, dependents[u], indegree);
      TracksStep(g, order, indegree, ready, next, released);
      TracksSorted(g, order + [u], next, ready[1..] + released);
      GreedyStep(g, order, u);
      StepsGrow(p, order, u);
      indegree := next;
      ready := SortByOrder(ready[1..] + released);
      order := order + [u];
    }
    assert ready == [];
    TracksEnd(g, order, indegree);
    if processed != |p.nodes| {
      return Err(CycleDetected), order;
    }
    GreedyIsLeast(g, order);
    AllPlaced(p, order);
    CompiledIs(p, order);
    return Ok(steps), order;
  }

  lemma AllPlaced(p: Program, order: seq<nat>)
    requires OrderFits(p, order) && forall v :: 0 <= v < |p.nodes| ==> v in order
    ensures AllExpand(p.nodes)
  {
    forall v | 0 <= v < |p.nodes| ensures Expands(p.nodes[v]) {
      var i := IndexOf(order, v);
    }
  }

  lemma StepsGrow(p: Program, order: seq<nat>, u: nat)
    requires OrderFits(p, order) && u < |p.nodes| && Expands(p.nodes[u])
    ensures OrderFits(p, order + [u])
    ensures StepsInOrder(p, order + [u]) == StepsInOrder(p, order) + ExpandNode(p, p.nodes[u])
  {
    assert (order + [u])[..|order|] == order;
  }

  lemma GreedyStep(g: Graph, order: seq<nat>, u: nat)
    requires Greedy(g, order) && Available(g, order, u) && forall v :: Available(g, order, v) ==> u <= v
    ensures Greedy(g, order + [u])
  {
    var more := order + [u];
    forall k | 0 <= k < |more|
      ensures Available(g, more[..k], more[k]) && forall v :: Available(g, more[..k], v) ==> more[k] <= v
    {
      assert more[..k] == order[..k];
      if k == |order| {
        assert order[..k] == order;
      }
    }
  }

  // ---- the compiler for programs attached to a step: first come, first served ----

  predicate Nondecreasing(lv: seq<nat>) {
    forall i, j :: 0 <= i <= j < |lv| ==> lv[i] <= lv[j]
  }

  type Depths = (nat, nat) -> bool

  ghost function DepthsIn(g: Graph): Depths {
    (v: nat, n: nat) => IsDepth(g, v, n)
  }

  ghost predicate LieAt(depths: Depths, nodes: seq<nat>, lv: seq<nat>) {
    |nodes| == |lv| && forall i :: 0 <= i < |nodes| ==> depths(nodes[i], lv[i])
  }

  /** `lv` holds the depths of the emitted and then the queued nodes. They never step down, and nothing
      queued is more than one level below the last emitted node. */
  ghost predicate Levelled(depths: Depths, lv: seq<nat>, out: seq<nat>, queue: seq<nat>) {
    && LieAt(depths, out + queue, lv) && Nondecreasing(lv)
    && forall i :: 0 <= i < |lv| ==> lv[i] <= if |out| == 0 then 0 else lv[|out|-1] + 1
  }

  lemma LevelledStart(g: Graph, roots: seq<nat>)
    requires forall v: nat :: v in roots <==> Available(g, [], v)
    ensures Levelled(DepthsIn(g), seq(|roots|, _ => 0), [], roots)
  {
    forall i | 0 <= i < |roots| ensures IsDepth(g, roots[i], 0) {
      assert Available(g, [], roots[i]);
      DepthOfRoot(g, roots[i]);
    }
  }

  /** A node released by the head of the queue lies exactly one level below it. */
  lemma ReleasedDepth(g: Graph, lv: seq<nat>, out: seq<nat>, queue: seq<nat>, v: nat)
    requires Levelled(DepthsIn(g), lv, out, queue) && |queue| > 0
    requires Available(g, out + [queue[0]], v) && !Available(g, out, v)
    ensures IsDepth(g, v, lv[|out|] + 1)
  {
    var u := queue[0];
    assert u in g[v];
    forall x | x in g[v] ensures exists m :: m <= lv[|out|] && IsDepth(g, x, m) {
      if x != u {
        assert x in out;
        var i := IndexOf(out, x);
        assert (out + queue)[i] == x && DepthsIn(g)(x, lv[i]);
      } else {
        assert (out + queue)[|out|] == u && DepthsIn(g)(u, lv[|out|]);
      }
    }
    DepthAboveDependencies(g, v, u, lv[|out|]);
  }

  /** So many nodes of one level. */
  function Level(n: nat, count: nat): (r: seq<nat>)
    ensures |r| == count && forall i :: 0 <= i < count ==> r[i] == n
  {
    seq(count, _ => n)
  }

  /** Levels stay in order, and within one of the last level that is out, when the next level is queued. */
  lemma LevelsAscend(lv: seq<nat>, n: nat, more: nat)
    requires n < |lv| && Nondecreasing(lv)
    requires forall i :: 0 <= i < |lv| ==> lv[i] <= if n == 0 then 0 else lv[n-1] + 1
    ensures var next := lv + Level(lv[n] + 1, more);
            Nondecreasing(next) && forall i :: 0 <= i < |next| ==> next[i] <= next[n] + 1
  {
    assert forall i :: 0 <= i < |lv| ==> lv[i] <= lv[n] + 1;
  }

  lemma ReleasedLie(g: Graph, lv: seq<nat>, out: seq<nat>, queue: seq<nat>, released: seq<nat>)
    requires Levelled(DepthsIn(g), lv, out, queue) && |queue| > 0
    requires forall v :: v in released ==> Available(g, out + [queue[0]], v) && !Available(g, out, v)
    ensures LieAt(DepthsIn(g), released, Level(lv[|out|] + 1, |released|))
  {
    forall i | 0 <= i < |released| ensures IsDepth(g, released[i], lv[|out|] + 1) {
      ReleasedDepth(g, lv, out, queue, released[i]);
    }
  }

  lemma LevelledGrows(depths: Depths, lv: seq<nat>, out: seq<nat>, queue: seq<nat>, released: seq<nat>)
    requires Levelled(depths, lv, out, queue) && |queue| > 0
    requires LieAt(depths, released, Level(lv[|out|] + 1, |released|))
    ensures Levelled(depths, lv + Level(lv[|out|] + 1, |released|), out + [queue[0]], queue[1..] + released)
  {
    LevelsAscend(lv, |out|, |released|);
    assert (out + [queue[0]]) + (queue[1..] + released) == (out + queue) + released;
  }

  lemma LevelledStep(g: Graph, lv: seq<nat>, out: seq<nat>, queue: seq<nat>, released: seq<nat>)
    requires Levelled(DepthsIn(g), lv, out, queue) && |queue| > 0
    requires forall v :: v in released ==> Available(g, out + [queue[0]], v) && !Available(g, out, v)
    ensures Levelled(DepthsIn(g), lv + Level(lv[|out|] + 1, |released|), out + [queue[0]], queue[1..] + released)
  {
    ReleasedLie(g, lv, out, queue, released);
    LevelledGrows(DepthsIn(g), lv, out, queue, released);
  }

  /** Nodes come level by level: never a node before one with a shorter longest dependency chain. */
  ghost predicate LevelOrder(g: Graph, order: seq<nat>) {
    && (forall v :: v in order ==> exists n :: IsDepth(g, v, n))
    && (forall i, j, m, n :: 0 <= i < j < |order| && IsDepth(g, order[i], m) && IsDepth(g, order[j], n) ==> m <= n)
  }

  lemma LevelledIsLevelOrder(g: Graph, lv: seq<nat>, out: seq<nat>)
    requires Levelled(DepthsIn(g), lv, out, [])
    ensures LevelOrder(g, out)
  {
    assert out + [] == out;
    forall v | v in out ensures exists n :: IsDepth(g, v, n) {
      var i :| 0 <= i < |out| && out[i] == v;
      assert DepthsIn(g)(out[i], lv[i]);
    }
    forall i, j, m, n | 0 <= i < j < |out| && IsDepth(g, out[i], m) && IsDepth(g, out[j], n) ensures m <= n {
      assert DepthsIn(g)(out[i], lv[i]) && DepthsIn(g)(out[j], lv[j]);
      DepthUnique(g, out[i], m, lv[i]);
      DepthUnique(g, out[j], n, lv[j]);
    }
  }

  method OrderedProgramNodes(nodes: seq<Node>) returns (r: Result<seq<nat>, CompileError>)
    ensures !IDsValid(nodes) ==> r.Err? && (r.error.MissingNodeID? || r.error.DuplicateNodeID?)
    ensures IDsValid(nodes) && !DependenciesDeclared(nodes) ==> r == Err(DependencyNotFound)
    ensures Valid(nodes) && !Acyclic(nodes) ==> r == Err(CycleDetected)
    ensures r.Ok? <==> Valid(nodes) && Acyclic(nodes)
    ensures r.Ok? ==> IsTopological(GraphOf(nodes), r.value) && LevelOrder(GraphOf(nodes), r.value)
  {
    var error, index := IndexNodes(nodes);
    if error.Some? {
      return Err(error.value);
    }
    var g;
    error, g := ResolveDependencies(nodes, index);
    if error.Some? {
      return Err(error.value);
    }
    var dependents := BuildDependents(g);
    var indegree, queue := Roots(g);
    TracksStart(g, indegree, queue);
    var out: seq<nat> := [];
    ghost var levels: seq<nat> := seq(|queue|, _ => 0);
    LevelledStart(g, queue);
    while |queue| > 0
      invariant Tracks(g, out, indegree, queue)
      invariant Levelled(DepthsIn(g), levels, out, queue)
      decreases |g| - |out|
    {
      var u := queue[0];
      assert u in queue;
      var next, released := ReleaseDependents(g, out, u, dependents[u], indegree);
      TracksStep(g, out, indegree, queue, next, released);
      LevelledStep(g, levels, out, queue, released);
      levels := levels + Level(levels[|out|] + 1, |released|);
      indegree := next;
      queue := queue[1..] + released;
      out := out + [u];
    }
    assert queue == [];
    TracksEnd(g, out, indegree);
    if |out| != |nodes| {
      return Err(CycleDetected);
    }
    LevelledIsLevelOrder(g, levels, out);
    return Ok(out);
  }
}

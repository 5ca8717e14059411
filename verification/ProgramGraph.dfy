/** Dependency graphs of programs, with nodes named by declaration index.
    `g[v]` lists what node `v` depends on, one entry per occurrence in its `DependsOn`. */
module ProgramGraph {

  type Graph = seq<seq<nat>>

  ghost predicate WellFormed(g: Graph) {
    forall v, k :: 0 <= v < |g| && 0 <= k < |g[v]| ==> g[v][k] < |g|
  }

  /** A walk along dependency edges, from a dependency to something that needs it. */
  ghost predicate IsPath(g: Graph, p: seq<nat>) {
    && |p| > 0
    && (forall i :: 0 <= i < |p| ==> p[i] < |g|)
    && (forall i :: 0 < i < |p| ==> p[i-1] in g[p[i]])
  }

  ghost predicate IsCycle(g: Graph, p: seq<nat>) {
    IsPath(g, p) && |p| > 1 && p[0] == p[|p|-1]
  }

  ghost predicate HasCycle(g: Graph) {
    exists p :: IsCycle(g, p)
  }

  ghost predicate Distinct(s: seq<nat>) {
    forall i, j :: 0 <= i < j < |s| ==> s[i] != s[j]
  }

  /** Distinct nodes of `g`, none before something it depends on. */
  ghost predicate IsPartialOrder(g: Graph, order: seq<nat>) {
    && Distinct(order)
    && (forall i :: 0 <= i < |order| ==> order[i] < |g|)
    && (forall i, d :: 0 <= i < |order| && d in g[order[i]] ==> d in order[..i])
  }

  /** Every node exactly once, after all its dependencies. */
  ghost predicate IsTopological(g: Graph, order: seq<nat>) {
    IsPartialOrder(g, order) && |order| == |g|
  }

  /** `v` can be emitted next, once `done` has been. */
  ghost predicate Available(g: Graph, done: seq<nat>, v: nat) {
    v < |g| && v !in done && forall d :: d in g[v] ==> d in done
  }

  ghost predicate Less(p: seq<nat>, q: seq<nat>) {
    exists k :: 0 <= k < |p| && k < |q| && p[..k] == q[..k] && p[k] < q[k]
  }

  /** The topological order that is below every other one, comparing declaration indices. */
  ghost predicate IsLeastTopological(g: Graph, order: seq<nat>) {
    IsTopological(g, order) && forall q :: IsTopological(g, q) && q != order ==> Less(order, q)
  }

  /** `n` edges is the length of the longest dependency chain ending in `v`. */
  ghost predicate IsDepth(g: Graph, v: nat, n: nat) {
    && (exists p :: IsPath(g, p) && p[|p|-1] == v && |p| == n + 1)
    && (forall p :: IsPath(g, p) && p[|p|-1] == v ==> |p| <= n + 1)
  }

  // ---- counting distinct nodes ----

  function Elements(s: seq<nat>): set<nat> { set x | x in s }

  lemma {:induction false} DistinctCard(s: seq<nat>)
    requires Distinct(s)
    ensures |Elements(s)| == |s|
  {
    if s == [] {
    } else {
      var t := s[..|s|-1];
      DistinctCard(t);
      assert s == t + [s[|s|-1]];
      assert Elements(s) == Elements(t) + {s[|s|-1]};
    }
  }

  lemma {:induction false} RangeCard(n: nat, s: set<nat>)
    requires forall x :: x in s ==> x < n
    ensures |s| <= n
  {
    if n == 0 {
      assert s == {};
    } else {
      RangeCard(n - 1, s - {n - 1});
    }
  }

  lemma DistinctBounded(s: seq<nat>, n: nat)
    requires Distinct(s) && forall i :: 0 <= i < |s| ==> s[i] < n
    ensures |s| <= n
  {
    DistinctCard(s);
    RangeCard(n, Elements(s));
  }

  lemma {:induction false} FullRange(n: nat, s: set<nat>, v: nat)
    requires forall x :: x in s ==> x < n
    requires |s| == n && v < n
    ensures v in s
  {
    if v !in s {
      RangeCard(n, s + {v});
    }
  }

  lemma CoversAll(s: seq<nat>, n: nat, v: nat)
    requires Distinct(s) && |s| == n && v < n
    requires forall i :: 0 <= i < |s| ==> s[i] < n
    ensures v in s
  {
    DistinctCard(s);
    FullRange(n, Elements(s), v);
  }

  // ---- cycles and topological orders exclude each other ----

  function IndexOf(s: seq<nat>, x: nat): (i: nat)
    requires x in s
    ensures i < |s| && s[i] == x
  {
    if s[0] == x then 0 else 1 + IndexOf(s[1..], x)
  }

  lemma {:induction false} PathClimbs(g: Graph, order: seq<nat>, p: seq<nat>)
    requires IsTopological(g, order) && IsPath(g, p)
    ensures p[0] in order && p[|p|-1] in order
    ensures |p| > 1 ==> IndexOf(order, p[0]) < IndexOf(order, p[|p|-1])
  {
    CoversAll(order, |g|, p[0]);
    CoversAll(order, |g|, p[|p|-1]);
    if |p| > 1 {
      var q := p[..|p|-1];
      PathClimbs(g, order, q);
      var i := IndexOf(order, p[|p|-1]);
      assert p[|p|-2] in g[order[i]];
      assert p[|p|-2] in order[..i];
    }
  }

  lemma TopologicalHasNoCycle(g: Graph, order: seq<nat>)
    requires IsTopological(g, order)
    ensures !HasCycle(g)
  {
    forall p ensures !IsCycle(g, p) {
      if IsCycle(g, p) {
        PathClimbs(g, order, p);
      }
    }
  }

  ghost predicate Stuck(g: Graph, done: seq<nat>) {
    forall v :: !Available(g, done, v)
  }

  /** Where nothing is available, one can walk backwards for ever. */
  lemma {:induction false} BackwardWalk(g: Graph, done: seq<nat>, v: nat, n: nat) returns (p: seq<nat>)
    requires WellFormed(g) && Stuck(g, done) && v < |g| && v !in done
    ensures IsPath(g, p) && |p| == n + 1 && p[0] !in done
  {
    if n == 0 {
      p := [v];
    } else {
      var q := BackwardWalk(g, done, v, n - 1);
      assert !Available(g, done, q[0]);
      var d :| d in g[q[0]] && d !in done;
      p := [d] + q;
    }
  }

  lemma StuckMeansCycle(g: Graph, done: seq<nat>, v: nat)
    requires WellFormed(g) && Stuck(g, done) && v < |g| && v !in done
    ensures HasCycle(g)
  {
    var p := BackwardWalk(g, done, v, |g|);
    if Distinct(p) {
      DistinctBounded(p, |g|);
    }
    var i, j :| 0 <= i < j < |p| && p[i] == p[j];
    var c := p[i..j+1];
    assert IsCycle(g, c);
  }

  // ---- the greedy order is the least one ----

  /** Each entry is the least node available at its place. */
  ghost predicate Greedy(g: Graph, order: seq<nat>) {
    forall k :: 0 <= k < |order| ==>
      && Available(g, order[..k], order[k])
      && forall v :: Available(g, order[..k], v) ==> order[k] <= v
  }

  lemma GreedyIsPartialOrder(g: Graph, order: seq<nat>)
    requires Greedy(g, order)
    ensures IsPartialOrder(g, order)
  {
    forall i, j | 0 <= i < j < |order| ensures order[i] != order[j] {
      assert order[i] in order[..j];
    }
  }

  lemma {:induction false} FirstDifference(p: seq<nat>, q: seq<nat>) returns (k: nat)
    requires |p| == |q| && p != q
    ensures k < |p| && p[..k] == q[..k] && p[k] != q[k]
  {
    if p[0] != q[0] {
      k := 0;
    } else {
      assert p == [p[0]] + p[1..] && q == [q[0]] + q[1..];
      var m := FirstDifference(p[1..], q[1..]);
      k := m + 1;
      assert p[..k] == [p[0]] + p[1..][..m];
      assert q[..k] == [q[0]] + q[1..][..m];
    }
  }

  lemma GreedyIsLeast(g: Graph, order: seq<nat>)
    requires Greedy(g, order) && |order| == |g|
    ensures IsLeastTopological(g, order)
  {
    GreedyIsPartialOrder(g, order);
    forall q | IsTopological(g, q) && q != order ensures Less(order, q) {
      var k := FirstDifference(order, q);
      assert q[k] !in q[..k];
      assert Available(g, q[..k], q[k]);
    }
  }

  // ---- depths ----

  lemma DepthOfRoot(g: Graph, v: nat)
    requires v < |g| && forall x :: x !in g[v]
    ensures IsDepth(g, v, 0)
  {
    assert IsPath(g, [v]);
    assert forall p :: IsPath(g, p) && |p| > 1 ==> p[|p|-2] in g[p[|p|-1]];
  }

  lemma DepthAboveDependencies(g: Graph, v: nat, u: nat, n: nat)
    requires v < |g| && u in g[v] && IsDepth(g, u, n)
    requires forall x :: x in g[v] ==> exists m: nat :: m <= n && IsDepth(g, x, m)
    ensures IsDepth(g, v, n + 1)
  {
    var q :| IsPath(g, q) && q[|q|-1] == u && |q| == n + 1;
    var r := q + [v];
    assert IsPath(g, r) && r[|r|-1] == v && |r| == n + 2;
    forall p | IsPath(g, p) && p[|p|-1] == v ensures |p| <= n + 2 {
      if |p| > 1 {
        var x := p[|p|-2];
        assert x in g[v];
        var m: nat :| m <= n && IsDepth(g, x, m);
        var s := p[..|p|-1];
        assert IsPath(g, s) && s[|s|-1] == x;
      }
    }
  }

  lemma DepthUnique(g: Graph, v: nat, m: nat, n: nat)
    requires IsDepth(g, v, m) && IsDepth(g, v, n)
    ensures m == n
  {
  }
}

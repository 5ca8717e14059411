/** The in-degree bookkeeping both program compilers share. */
module Kahn {
  import opened ProgramGraph

  /** How many entries of `deps` are still waited for. */
  function Outside(deps: seq<nat>, done: seq<nat>): nat {
    if deps == [] then 0
    else Outside(deps[1..], done) + if deps[0] in done then 0 else 1
  }

  lemma {:induction false} OutsideZero(deps: seq<nat>, done: seq<nat>)
    ensures Outside(deps, done) == 0 <==> forall d :: d in deps ==> d in done
  {
    if deps != [] {
      OutsideZero(deps[1..], done);
      assert forall d :: d in deps <==> d == deps[0] || d in deps[1..];
    }
  }

  lemma {:induction false} OutsideStart(deps: seq<nat>)
    ensures Outside(deps, []) == |deps|
  {
    if deps != [] {
      OutsideStart(deps[1..]);
    }
  }

  lemma {:induction false} OutsideExtend(deps: seq<nat>, done: seq<nat>, u: nat)
    requires u !in done
    ensures Outside(deps, done) == Outside(deps, done + [u]) + multiset(deps)[u]
  {
    if deps != [] {
      OutsideExtend(deps[1..], done, u);
      assert deps == [deps[0]] + deps[1..];
    }
  }

  /** `ds` lists the dependents of `u`, one entry per occurrence of `u` in a dependency list. */
  ghost predicate Mirrors(g: Graph, u: nat, ds: seq<nat>) {
    && (forall i :: 0 <= i < |ds| ==> ds[i] < |g|)
    && forall v :: 0 <= v < |g| ==> multiset(ds)[v] == multiset(g[v])[u]
  }

  /** `ds` mirrors `u` as far as the nodes before `v` and the first `k` dependencies of `v` go. */
  ghost predicate Tallied(g: Graph, ds: seq<nat>, u: nat, v: nat, k: nat)
    requires v <= |g| && (v < |g| ==> k <= |g[v]|)
  {
    && (forall i :: 0 <= i < |ds| ==> ds[i] < |g| && ds[i] <= v)
    && (forall w :: 0 <= w < v ==> multiset(ds)[w] == multiset(g[w])[u])
    && (v < |g| ==> multiset(ds)[v] == multiset(g[v][..k])[u])
  }

  lemma TallyEntry(g: Graph, ds: seq<nat>, u: nat, v: nat, k: nat)
    requires v < |g| && k < |g[v]| && Tallied(g, ds, u, v, k)
    ensures Tallied(g, if g[v][k] == u then ds + [v] else ds, u, v, k + 1)
  {
    assert g[v][..k+1] == g[v][..k] + [g[v][k]];
  }

  lemma TallyRow(g: Graph, ds: seq<nat>, u: nat, v: nat)
    requires v < |g| && Tallied(g, ds, u, v, |g[v]|)
    ensures Tallied(g, ds, u, v + 1, 0)
  {
    assert g[v][..|g[v]|] == g[v];
    assert v + 1 !in ds;
  }

  method BuildDependents(g: Graph) returns (dependents: seq<seq<nat>>)
    requires WellFormed(g)
    ensures |dependents| == |g| && forall u :: 0 <= u < |g| ==> Mirrors(g, u, dependents[u])
  {
    dependents := seq(|g|, _ => []);
    for v := 0 to |g|
      invariant |dependents| == |g|
      invariant forall u :: 0 <= u < |g| ==> Tallied(g, dependents[u], u, v, 0)
    {
      for k := 0 to |g[v]|
        invariant |dependents| == |g|
        invariant forall u :: 0 <= u < |g| ==> Tallied(g, dependents[u], u, v, k)
      {
        forall u | 0 <= u < |g| ensures Tallied(g, if g[v][k] == u then dependents[u] + [v] else dependents[u], u, v, k + 1) {
          TallyEntry(g, dependents[u], u, v, k);
        }
        var d := g[v][k];
        dependents := dependents[d := dependents[d] + [v]];
      }
      forall u | 0 <= u < |g| ensures Tallied(g, dependents[u], u, v + 1, 0) {
        TallyRow(g, dependents[u], u, v);
      }
    }
    forall u | 0 <= u < |g| ensures Mirrors(g, u, dependents[u]) {
      assert Tallied(g, dependents[u], u, |g|, 0);
    }
  }

  /** How often `v` is still to come. */
  function Left(ds: seq<nat>, j: nat, v: nat): nat
    requires j <= |ds|
  {
    multiset(ds[j..])[v]
  }

  lemma LeftStep(ds: seq<nat>, j: nat, v: nat)
    requires j < |ds|
    ensures Left(ds, j, v) == Left(ds, j + 1, v) + if v == ds[j] then 1 else 0
    ensures v in ds[j..] <==> v == ds[j] || v in ds[j+1..]
    ensures v in ds[..j+1] <==> v == ds[j] || v in ds[..j]
    ensures v in ds[j+1..] <==> Left(ds, j + 1, v) > 0
  {
    assert ds[j..] == [ds[j]] + ds[j+1..];
    assert ds[..j+1] == ds[..j] + [ds[j]];
  }

  /** What the release loop has achieved once the entries of `ds` before `j` have been counted. */
  ghost predicate Counted(g: Graph, after: seq<nat>, ds: seq<nat>, j: nat, next: seq<int>)
    requires j <= |ds|
  {
    |next| == |g| && forall v: nat :: v < |g| ==> next[v] == Outside(g[v], after) + Left(ds, j, v)
  }

  ghost predicate Released(g: Graph, after: seq<nat>, ds: seq<nat>, j: nat, released: seq<nat>)
    requires j <= |ds|
  {
    && Distinct(released)
    && forall v: nat :: v in released <==> v < |g| && v in ds[..j] && v !in ds[j..] && Outside(g[v], after) == 0
  }

  lemma CountStep(g: Graph, after: seq<nat>, ds: seq<nat>, j: nat, next: seq<int>)
    requires j < |ds| && ds[j] < |g| && Counted(g, after, ds, j, next)
    ensures next[ds[j]] >= 1
    ensures Counted(g, after, ds, j + 1, next[ds[j] := next[ds[j]] - 1])
  {
    LeftStep(ds, j, ds[j]);
    forall v: nat | v < |g|
      ensures next[ds[j] := next[ds[j]] - 1][v] == Outside(g[v], after) + Left(ds, j + 1, v)
    {
      LeftStep(ds, j, v);
    }
  }

  lemma ReleaseStep(g: Graph, after: seq<nat>, ds: seq<nat>, j: nat, next: seq<int>, released: seq<nat>)
    requires j < |ds| && ds[j] < |g| && Counted(g, after, ds, j, next) && Released(g, after, ds, j, released)
    ensures Released(g, after, ds, j + 1, if next[ds[j]] == 1 then released + [ds[j]] else released)
  {
    var u := ds[j];
    LeftStep(ds, j, u);
    assert u !in released;
    var more := if next[u] == 1 then released + [u] else released;
    forall v: nat ensures v in more <==> v < |g| && v in ds[..j+1] && v !in ds[j+1..] && Outside(g[v], after) == 0 {
      LeftStep(ds, j, v);
    }
  }

  lemma ReleasedIsNewlyAvailable(g: Graph, done: seq<nat>, u: nat, ds: seq<nat>, released: seq<nat>)
    requires WellFormed(g) && IsPartialOrder(g, done) && Available(g, done, u) && Mirrors(g, u, ds)
    requires Released(g, done + [u], ds, |ds|, released)
    ensures forall v: nat :: v in released <==> Available(g, done + [u], v) && !Available(g, done, v)
  {
    assert ds[..|ds|] == ds;
    forall v: nat ensures v in released <==> Available(g, done + [u], v) && !Available(g, done, v) {
      if v < |g| {
        OutsideZero(g[v], done + [u]);
        OutsideExtend(g[v], done, u);
        OutsideZero(g[v], done);
        assert multiset(ds)[v] == multiset(g[v])[u];
        assert v in ds <==> u in g[v];
        if v in done && u in g[v] {
          var i := IndexOf(done, v);
          assert u in done[..i];
        }
      }
    }
  }

  /** Counts `u` as done for everything that depends on it, and returns what that made ready. */
  method ReleaseDependents(ghost g: Graph, ghost done: seq<nat>, ghost u: nat, ds: seq<nat>, indegree: seq<int>)
    returns (next: seq<int>, released: seq<nat>)
    requires WellFormed(g) && IsPartialOrder(g, done) && Available(g, done, u) && Mirrors(g, u, ds)
    requires |indegree| == |g| && forall v :: 0 <= v < |g| ==> indegree[v] == Outside(g[v], done)
    ensures |next| == |g| && forall v :: 0 <= v < |g| ==> next[v] == Outside(g[v], done + [u])
    ensures Distinct(released)
    ensures forall v: nat :: v in released <==> Available(g, done + [u], v) && !Available(g, done, v)
  {
    next, released := indegree, [];
    ghost var after := done + [u];
    forall v: nat | v < |g| ensures Outside(g[v], done) == Outside(g[v], after) + Left(ds, 0, v) {
      OutsideExtend(g[v], done, u);
      assert ds[0..] == ds;
      assert multiset(ds)[v] == multiset(g[v])[u];
    }
    for j := 0 to |ds|
      invariant Counted(g, after, ds, j, next) && Released(g, after, ds, j, released)
    {
      CountStep(g, after, ds, j, next);
      ReleaseStep(g, after, ds, j, next, released);
      var v := ds[j];
      next := next[v := next[v] - 1];
      if next[v] == 0 {
        released := released + [v];
      }
    }
    assert ds[|ds|..] == [];
    ReleasedIsNewlyAvailable(g, done, u, ds, released);
  }

  /** In-degrees before anything is done, and the nodes without dependencies in declaration order. */
  method Roots(g: Graph) returns (indegree: seq<int>, roots: seq<nat>)
    requires WellFormed(g)
    ensures |indegree| == |g| && forall v :: 0 <= v < |g| ==> indegree[v] == Outside(g[v], [])
    ensures forall v: nat :: v in roots <==> Available(g, [], v)
    ensures forall i, j :: 0 <= i < j < |roots| ==> roots[i] < roots[j]
  {
    indegree, roots := [], [];
    for v := 0 to |g|
      invariant |indegree| == v && forall w :: 0 <= w < v ==> indegree[w] == Outside(g[w], [])
      invariant forall w: nat :: w in roots <==> w < v && Available(g, [], w)
      invariant forall i :: 0 <= i < |roots| ==> roots[i] < v
      invariant forall i, j :: 0 <= i < j < |roots| ==> roots[i] < roots[j]
    {
      OutsideStart(g[v]);
      OutsideZero(g[v], []);
      indegree := indegree + [|g[v]|];
      if |g[v]| == 0 {
        roots := roots + [v];
      }
    }
  }

  lemma ReadyAfter(g: Graph, done: seq<nat>, u: nat, v: nat)
    requires Available(g, done, u)
    ensures Available(g, done, v) && v != u ==> Available(g, done + [u], v)
    ensures Available(g, done + [u], v) ==> v != u
  {
  }

  /** Emitted nodes are distinct nodes of the graph, so there is room for one more. */
  lemma RoomLeft(g: Graph, done: seq<nat>, u: nat)
    requires IsPartialOrder(g, done) && Available(g, done, u)
    ensures IsPartialOrder(g, done + [u])
    ensures |done| < |g|
  {
    var more := done + [u];
    forall i, d | 0 <= i < |more| && d in g[more[i]] ensures d in more[..i] {
      if i < |done| {
        assert more[..i] == done[..i];
      } else {
        assert more[..i] == done;
      }
    }
    DistinctBounded(more, |g|);
  }

  /** What it means that the work list ran empty. */
  lemma RunDry(g: Graph, done: seq<nat>)
    requires WellFormed(g) && IsPartialOrder(g, done) && Stuck(g, done)
    ensures |done| == |g| <==> !HasCycle(g)
  {
    DistinctBounded(done, |g|);
    if |done| == |g| {
      TopologicalHasNoCycle(g, done);
    } else {
      var v := Missing(g, done);
      StuckMeansCycle(g, done, v);
    }
  }

  lemma Missing(g: Graph, done: seq<nat>) returns (v: nat)
    requires IsPartialOrder(g, done) && |done| < |g|
    ensures v < |g| && v !in done
  {
    if forall w :: 0 <= w < |g| ==> w in done {
      var all: seq<nat> := seq(|g|, i requires 0 <= i < |g| => i);
      DistinctCard(all);
      DistinctCard(done);
      assert Elements(all) <= Elements(done) by {
        forall w | w in all ensures w in Elements(done) { }
      }
      SubsetCard(Elements(all), Elements(done));
    }
    v :| v < |g| && v !in done;
  }

  lemma {:induction false} SubsetCard(a: set<nat>, b: set<nat>)
    requires a <= b
    ensures |a| <= |b|
  {
    if a != {} {
      var x :| x in a;
      SubsetCard(a - {x}, b - {x});
    }
  }
}

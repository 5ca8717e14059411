/** What the result of an aggregate tells, read against the steps of the plan it was folded from. */
module AggregateReports {
  import opened PlanModel
  import opened Aggregates

  /** Where the members stand. */
  ghost function Places(steps: seq<Step>, id: string): set<nat> {
    set i: nat | i < |steps| && steps[i].metadata.aggregateID == id
  }

  predicate IsIn(s: Step, id: string, status: StepStatus) {
    s.metadata.aggregateID == id && s.status == status
  }

  /** Where the members with this status stand. */
  ghost function PlacesIn(steps: seq<Step>, id: string, status: StepStatus): set<nat> {
    set i: nat | i < |steps| && IsIn(steps[i], id, status)
  }

  lemma OnePlaceMore(rest: set<nat>, all: set<nat>, n: nat, more: bool)
    requires n !in rest && (n in all <==> more) && forall i: nat :: i != n ==> (i in all <==> i in rest)
    ensures |all| == |rest| + if more then 1 else 0
  {
    assert all == if more then rest + {n} else rest;
  }

  lemma MemberPlace(steps: seq<Step>, id: string)
    requires steps != []
    ensures var n := |steps| - 1;
            |Places(steps, id)| == |Places(steps[..n], id)| + if steps[n].metadata.aggregateID == id then 1 else 0
  {
    var n := |steps| - 1;
    OnePlaceMore(Places(steps[..n], id), Places(steps, id), n, steps[n].metadata.aggregateID == id);
  }

  lemma StatusPlace(steps: seq<Step>, id: string, status: StepStatus)
    requires steps != []
    ensures var n := |steps| - 1;
            |PlacesIn(steps, id, status)| == |PlacesIn(steps[..n], id, status)| + if IsIn(steps[n], id, status) then 1 else 0
  {
    var n := |steps| - 1;
    var front := steps[..n];
    forall i: nat | i != n ensures i in PlacesIn(steps, id, status) <==> i in PlacesIn(front, id, status) {
      assert i < n ==> front[i] == steps[i];
    }
    OnePlaceMore(PlacesIn(front, id, status), PlacesIn(steps, id, status), n, IsIn(steps[n], id, status));
  }

  lemma CountsGrow(ms: seq<Step>, s: Step)
    ensures CountCompleted(ms + [s]) == CountCompleted(ms) + if s.status == Completed then 1 else 0
    ensures CountFailed(ms + [s]) == CountFailed(ms) + if s.status == Failed then 1 else 0
  {
    assert (ms + [s])[..|ms|] == ms;
  }

  lemma {:induction false} CountsArePlaces(steps: seq<Step>, id: string)
    requires id != ""
    ensures |Members(steps, id)| == |Places(steps, id)|
    ensures CountCompleted(Members(steps, id)) == |PlacesIn(steps, id, Completed)|
    ensures CountFailed(Members(steps, id)) == |PlacesIn(steps, id, Failed)|
  {
    if steps == [] {
      assert Places(steps, id) == {} && PlacesIn(steps, id, Completed) == {} && PlacesIn(steps, id, Failed) == {};
    } else {
      var n := |steps| - 1;
      CountsArePlaces(steps[..n], id);
      CountsGrow(Members(steps[..n], id), steps[n]);
      assert Members(steps, id) == if MemberOf(steps[n], id) then Members(steps[..n], id) + [steps[n]] else Members(steps[..n], id);
      MemberPlace(steps, id);
      StatusPlace(steps, id, Completed);
      StatusPlace(steps, id, Failed);
    }
  }

  /** What is told of one member. */
  predicate Tells(t: TargetResult, s: Step) {
    && t.target == s.metadata.target && t.stepID == s.stepID && t.status == s.status && t.attempt == s.attempt && t.reason == s.reason
  }

  /** Targets with an id before those without, by id, and those with the same by step. */
  ghost predicate NotAfter(t: TargetResult, u: TargetResult) {
    if t.target.targetID == u.target.targetID then t.stepID == u.stepID || Precedes(t.stepID, u.stepID)
    else u.target.targetID == "" || (t.target.targetID != "" && Precedes(t.target.targetID, u.target.targetID))
  }

  lemma NotAfterIs(t: TargetResult, u: TargetResult)
    ensures !TargetLess(u, t) <==> NotAfter(t, u)
  {
    StringLessMeans(t.stepID, u.stepID);
    StringLessMeans(t.target.targetID, u.target.targetID);
    StringLessTotal(t.stepID, u.stepID);
    StringLessTotal(t.target.targetID, u.target.targetID);
    if StringLess(t.stepID, u.stepID) { StringLessStrict(t.stepID, u.stepID); }
    if StringLess(t.target.targetID, u.target.targetID) { StringLessStrict(t.target.targetID, u.target.targetID); }
  }

  /** Every member is told of, and nothing else. */
  ghost predicate TellsAll(ts: seq<TargetResult>, steps: seq<Step>, id: string) {
    && |ts| == |Places(steps, id)|
    && (forall t :: t in ts ==> exists i: nat :: i in Places(steps, id) && Tells(t, steps[i]))
    && (forall i: nat :: i in Places(steps, id) ==> exists t :: t in ts && Tells(t, steps[i]))
  }

  lemma TargetsTell(steps: seq<Step>, id: string, ts: seq<TargetResult>)
    requires id != "" && multiset(ts) == multiset(TargetResults(Members(steps, id))) && |ts| == |Members(steps, id)|
    ensures TellsAll(ts, steps, id)
  {
    var ms := Members(steps, id);
    MembersAre(steps, id);
    CountsArePlaces(steps, id);
    forall t | t in ts ensures exists i: nat :: i in Places(steps, id) && Tells(t, steps[i]) {
      assert t in multiset(ts);
      var m :| 0 <= m < |ms| && TargetResults(ms)[m] == t;
      assert ms[m] in ms;
      var i :| 0 <= i < |steps| && steps[i] == ms[m];
      assert i in Places(steps, id);
    }
    forall i: nat | i in Places(steps, id) ensures exists t :: t in ts && Tells(t, steps[i]) {
      assert steps[i] in steps && MemberOf(steps[i], id) && steps[i] in ms;
      var m :| 0 <= m < |ms| && ms[m] == steps[i];
      var t := TargetResults(ms)[m];
      assert t in multiset(TargetResults(ms));
      assert t in ts && Tells(t, steps[i]);
    }
  }

  /** The first member. */
  predicate First(steps: seq<Step>, id: string, k: nat) {
    k < |steps| && steps[k].metadata.aggregateID == id && forall j :: 0 <= j < k ==> steps[j].metadata.aggregateID != id
  }

  lemma {:induction false} FirstMember(steps: seq<Step>, id: string, k: nat)
    requires id != "" && First(steps, id, k)
    ensures Members(steps, id) != [] && Members(steps, id)[0] == steps[k]
  {
    var n := |steps| - 1;
    if k < n {
      FirstMember(steps[..n], id, k);
    } else {
      NoneBefore(steps[..n], id);
    }
  }

  lemma {:induction false} NoneBefore(steps: seq<Step>, id: string)
    requires forall j :: 0 <= j < |steps| ==> steps[j].metadata.aggregateID != id
    ensures Members(steps, id) == []
  {
    if steps != [] {
      NoneBefore(steps[..|steps|-1], id);
    }
  }

  /** What a result says of its aggregate: it is labelled as the first member; it counts the members by status, and its
      own status is what the counts come to; and it tells of every member, in order. */
  ghost predicate Reports(r: AggregateResult, steps: seq<Step>, k: nat)
    requires k < |steps|
  {
    var id, n := r.aggregateID, |Places(steps, r.aggregateID)|;
    && r.scope == steps[k].metadata.aggregateScope && r.labels == steps[k].metadata.labels
    && r.maxConcurrency == (if steps[k].metadata.maxConcurrency.Some? then steps[k].metadata.maxConcurrency.value else 0)
    && r.expected == (if steps[k].metadata.aggregateExpected > 0 then steps[k].metadata.aggregateExpected else n)
    && r.completed == |PlacesIn(steps, id, Completed)| && r.failed == |PlacesIn(steps, id, Failed)|
    && r.pending == n - r.completed - r.failed
    && (r.status.AggregateCompleted? <==> r.completed == n) && (r.status.AggregateFailed? <==> r.failed == n)
    && (r.status.AggregatePartialFailed? <==> r.completed > 0 && r.failed > 0 && r.completed + r.failed == n)
    && (r.status.AggregatePending? <==> r.completed + r.failed < n)
    && TellsAll(r.targets, steps, id) && forall i, j :: 0 <= i < j < |r.targets| ==> NotAfter(r.targets[i], r.targets[j])
  }

  lemma ReportOf(steps: seq<Step>, r: AggregateResult)
    requires r in AggregatesOf(steps)
    ensures r.aggregateID in FirstIDs(steps) && r.aggregateID != "" && r == ResultFor(steps, r.aggregateID)
  {
    FirstIDsAre(steps);
    var i :| 0 <= i < |AggregatesOf(steps)| && AggregatesOf(steps)[i] == r;
    assert FirstIDs(steps)[i] in FirstIDs(steps);
  }

  lemma InOrder(ts: seq<TargetResult>)
    requires SortedTargets(ts)
    ensures forall i, j :: 0 <= i < j < |ts| ==> NotAfter(ts[i], ts[j])
  {
    forall i, j | 0 <= i < j < |ts| ensures NotAfter(ts[i], ts[j]) {
      NotAfterIs(ts[i], ts[j]);
    }
  }

  lemma CountsTell(steps: seq<Step>, r: AggregateResult, k: nat)
    requires r.aggregateID in FirstIDs(steps) && r.aggregateID != "" && r == ResultFor(steps, r.aggregateID)
    requires First(steps, r.aggregateID, k)
    ensures var id, n := r.aggregateID, |Places(steps, r.aggregateID)|;
            && r.scope == steps[k].metadata.aggregateScope && r.labels == steps[k].metadata.labels
            && r.maxConcurrency == (if steps[k].metadata.maxConcurrency.Some? then steps[k].metadata.maxConcurrency.value else 0)
            && r.expected == (if steps[k].metadata.aggregateExpected > 0 then steps[k].metadata.aggregateExpected else n)
            && r.completed == |PlacesIn(steps, id, Completed)| && r.failed == |PlacesIn(steps, id, Failed)|
            && r.pending == n - r.completed - r.failed && n > 0
            && r.status == StatusFor(r.completed, r.failed, r.pending)
  {
    FirstMember(steps, r.aggregateID, k);
    CountsArePlaces(steps, r.aggregateID);
    CountsMean(Members(steps, r.aggregateID));
  }

  lemma ReportMeans(steps: seq<Step>, r: AggregateResult, k: nat)
    requires r in AggregatesOf(steps) && First(steps, r.aggregateID, k)
    ensures r.aggregateID != "" && Reports(r, steps, k)
  {
    ReportOf(steps, r);
    CountsTell(steps, r, k);
    CountsConserveTargets(steps, r);
    TargetsTell(steps, r.aggregateID, r.targets);
    InOrder(r.targets);
  }

  /** There is a result for exactly the ids that some step is tagged with. */
  lemma ReportedIDs(steps: seq<Step>, id: string)
    ensures (exists r :: r in AggregatesOf(steps) && r.aggregateID == id) <==> id != "" && exists k: nat :: First(steps, id, k)
  {
    FirstIDsAre(steps);
    var ids := FirstIDs(steps);
    if id in ids {
      var i :| 0 <= i < |ids| && ids[i] == id;
      assert AggregatesOf(steps)[i] in AggregatesOf(steps) && AggregatesOf(steps)[i].aggregateID == id;
      var s :| s in steps && MemberOf(s, id);
      var m :| 0 <= m < |steps| && steps[m] == s;
      var k := FirstOf(steps, id, m);
    }
    if k: nat :| First(steps, id, k) && id != "" {
      assert steps[k] in steps && MemberOf(steps[k], id);
    }
  }

  lemma FirstOf(steps: seq<Step>, id: string, m: nat) returns (k: nat)
    requires m < |steps| && steps[m].metadata.aggregateID == id
    ensures First(steps, id, k)
    decreases m
  {
    if j: nat :| j < m && steps[j].metadata.aggregateID == id {
      k := FirstOf(steps, id, j);
    } else {
      k := m;
    }
  }
}

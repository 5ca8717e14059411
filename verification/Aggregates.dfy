/** Folding the steps of a plan into one result per fan-out aggregate. */
module Aggregates {
  import opened PlanModel

  datatype AggregateStatus = AggregatePending | AggregateCompleted | AggregatePartialFailed | AggregateFailed

  datatype TargetResult = TargetResult(target: Target, stepID: string, status: StepStatus, attempt: int, reason: string)

  datatype AggregateResult = AggregateResult(
    aggregateID: string, scope: string, labels: Labels, expected: int, maxConcurrency: int, status: AggregateStatus,
    completed: nat, failed: nat, pending: nat, targets: seq<TargetResult>)

  // ---- the order of targets inside one aggregate ----

  predicate StringLess(a: string, b: string) {
    b != [] && (a == [] || a[0] < b[0] || (a[0] == b[0] && StringLess(a[1..], b[1..])))
  }

  /** Alike up to some place, where the one ends or has the smaller character. */
  ghost predicate Precedes(a: string, b: string) {
    exists k: nat :: PrecedesAt(a, b, k)
  }

  predicate PrecedesAt(a: string, b: string, k: nat) {
    k <= |a| && k < |b| && a[..k] == b[..k] && (k == |a| || a[k] < b[k])
  }

  lemma {:induction false} StringLessMeans(a: string, b: string)
    ensures StringLess(a, b) <==> Precedes(a, b)
  {
    if StringLess(a, b) && (a == [] || a[0] != b[0]) {
      assert PrecedesAt(a, b, 0);
    } else if a != [] && b != [] && a[0] == b[0] {
      StringLessMeans(a[1..], b[1..]);
      PrecedesShifts(a, b);
    }
  }

  lemma PrecedesShifts(a: string, b: string)
    requires a != [] && b != [] && a[0] == b[0]
    ensures Precedes(a, b) <==> Precedes(a[1..], b[1..])
  {
    if k: nat :| PrecedesAt(a, b, k) {
      assert k > 0 && a[1..][..k-1] == a[..k][1..] && b[1..][..k-1] == b[..k][1..];
      assert PrecedesAt(a[1..], b[1..], k - 1);
    }
    if k: nat :| PrecedesAt(a[1..], b[1..], k) {
      assert a[..k+1] == [a[0]] + a[1..][..k] && b[..k+1] == [b[0]] + b[1..][..k];
      assert PrecedesAt(a, b, k + 1);
    }
  }

  lemma {:induction false} StringLessTotal(a: string, b: string)
    ensures StringLess(a, b) || StringLess(b, a) || a == b
  {
    if a != [] && b != [] {
      StringLessTotal(a[1..], b[1..]);
      assert a == [a[0]] + a[1..] && b == [b[0]] + b[1..];
    }
  }

  lemma {:induction false} StringLessStrict(a: string, b: string)
    requires StringLess(a, b)
    ensures !StringLess(b, a) && a != b
  {
    if a != [] && a[0] == b[0] {
      StringLessStrict(a[1..], b[1..]);
    }
  }

  lemma {:induction false} StringLessTransitive(a: string, b: string, c: string)
    requires StringLess(a, b) && StringLess(b, c)
    ensures StringLess(a, c)
  {
    if a != [] && a[0] == b[0] == c[0] {
      StringLessTransitive(a[1..], b[1..], c[1..]);
    }
  }

  /** Results without a target come last; otherwise by target and then by step. */
  predicate TargetLess(left: TargetResult, right: TargetResult) {
    if left.target.targetID == right.target.targetID then StringLess(left.stepID, right.stepID)
    else if left.target.targetID == "" then false
    else if right.target.targetID == "" then true
    else StringLess(left.target.targetID, right.target.targetID)
  }

  ghost predicate SortedTargets(ts: seq<TargetResult>) {
    forall i, j :: 0 <= i < j < |ts| ==> !TargetLess(ts[j], ts[i])
  }

  lemma NotLessTransitive(a: TargetResult, b: TargetResult, c: TargetResult)
    requires !TargetLess(b, a) && !TargetLess(c, b)
    ensures !TargetLess(c, a)
  {
    if TargetLess(c, a) {
      var ka, kb, kc := a.target.targetID, b.target.targetID, c.target.targetID;
      StringLessTotal(ka, kb);
      StringLessTotal(kb, kc);
      StringLessTotal(a.stepID, b.stepID);
      StringLessTotal(b.stepID, c.stepID);
      if StringLess(ka, kb) && StringLess(kb, kc) { StringLessTransitive(ka, kb, kc); }
      if StringLess(a.stepID, b.stepID) && StringLess(b.stepID, c.stepID) {
        StringLessTransitive(a.stepID, b.stepID, c.stepID);
      }
      if StringLess(c.stepID, a.stepID) { StringLessStrict(c.stepID, a.stepID); }
      if StringLess(kc, ka) { StringLessStrict(kc, ka); }
    }
  }

  /** Stable insertion: behind everything that is not greater. */
  function InsertTarget(ts: seq<TargetResult>, t: TargetResult): seq<TargetResult> {
    if ts == [] || !TargetLess(t, ts[|ts|-1]) then ts + [t]
    else InsertTarget(ts[..|ts|-1], t) + [ts[|ts|-1]]
  }

  function SortTargets(ts: seq<TargetResult>): seq<TargetResult> {
    if ts == [] then [] else InsertTarget(SortTargets(ts[..|ts|-1]), ts[|ts|-1])
  }

  lemma {:induction false} InsertTargetSorts(ts: seq<TargetResult>, t: TargetResult)
    requires SortedTargets(ts)
    ensures SortedTargets(InsertTarget(ts, t))
    ensures multiset(InsertTarget(ts, t)) == multiset(ts) + multiset{t}
  {
    if ts == [] {
    } else if !TargetLess(t, ts[|ts|-1]) {
      forall i | 0 <= i < |ts| ensures !TargetLess(t, ts[i]) {
        if i < |ts| - 1 {
          NotLessTransitive(ts[i], ts[|ts|-1], t);
        }
      }
    } else {
      var last := ts[|ts|-1];
      var front := InsertTarget(ts[..|ts|-1], t);
      InsertTargetSorts(ts[..|ts|-1], t);
      assert ts == ts[..|ts|-1] + [last];
      LessIsStrict(t, last);
      forall i | 0 <= i < |front| ensures !TargetLess(last, front[i]) {
        assert front[i] in multiset(front);
        assert front[i] == t || front[i] in ts[..|ts|-1];
      }
    }
  }

  lemma LessIsStrict(a: TargetResult, b: TargetResult)
    requires TargetLess(a, b)
    ensures !TargetLess(b, a)
  {
    if StringLess(a.stepID, b.stepID) { StringLessStrict(a.stepID, b.stepID); }
    if StringLess(a.target.targetID, b.target.targetID) { StringLessStrict(a.target.targetID, b.target.targetID); }
  }

  lemma {:induction false} SortTargetsSorts(ts: seq<TargetResult>)
    ensures SortedTargets(SortTargets(ts))
    ensures multiset(SortTargets(ts)) == multiset(ts)
    ensures |SortTargets(ts)| == |ts|
  {
    if ts != [] {
      var front := ts[..|ts|-1];
      SortTargetsSorts(front);
      InsertTargetSorts(SortTargets(front), ts[|ts|-1]);
      assert ts == front + [ts[|ts|-1]];
    }
    assert |multiset(SortTargets(ts))| == |multiset(ts)|;
  }

  // ---- what an aggregate consists of ----

  predicate MemberOf(step: Step, id: string) {
    Tagged(step) && step.metadata.aggregateID == id
  }

  /** The steps tagged with `id`, in plan order. */
  function Members(steps: seq<Step>, id: string): seq<Step> {
    if steps == [] then []
    else Members(steps[..|steps|-1], id) + if MemberOf(steps[|steps|-1], id) then [steps[|steps|-1]] else []
  }

  /** The aggregate ids, by first occurrence. */
  function FirstIDs(steps: seq<Step>): seq<string> {
    if steps == [] then []
    else
      var ids, last := FirstIDs(steps[..|steps|-1]), steps[|steps|-1];
      if Tagged(last) && last.metadata.aggregateID !in ids then ids + [last.metadata.aggregateID] else ids
  }

  lemma {:induction false} MembersAre(steps: seq<Step>, id: string)
    ensures forall s :: s in Members(steps, id) <==> s in steps && MemberOf(s, id)
    ensures |Members(steps, id)| <= |steps|
  {
    if steps != [] {
      MembersAre(steps[..|steps|-1], id);
      assert forall s :: s in steps <==> s in steps[..|steps|-1] || s == steps[|steps|-1];
    }
  }

  lemma {:induction false} FirstIDsAre(steps: seq<Step>)
    ensures forall id :: id in FirstIDs(steps) <==> exists s :: s in steps && MemberOf(s, id)
    ensures forall i, j :: 0 <= i < j < |FirstIDs(steps)| ==> FirstIDs(steps)[i] != FirstIDs(steps)[j]
  {
    if steps != [] {
      var front, last := steps[..|steps|-1], steps[|steps|-1];
      FirstIDsAre(front);
      assert forall s :: s in steps <==> s in front || s == last;
      forall id ensures id in FirstIDs(steps) <==> exists s :: s in steps && MemberOf(s, id) {
        if MemberOf(last, id) {
          assert last in steps;
        }
        if id in FirstIDs(front) {
          var s :| s in front && MemberOf(s, id);
          assert s in steps;
        }
      }
    }
  }

  lemma {:induction false} NoMembers(steps: seq<Step>, id: string)
    requires id !in FirstIDs(steps)
    ensures Members(steps, id) == []
  {
    if steps != [] {
      NoMembers(steps[..|steps|-1], id);
    }
  }

  function CountCompleted(ms: seq<Step>): nat {
    if ms == [] then 0 else CountCompleted(ms[..|ms|-1]) + if ms[|ms|-1].status.Completed? then 1 else 0
  }

  function CountFailed(ms: seq<Step>): nat {
    if ms == [] then 0 else CountFailed(ms[..|ms|-1]) + if ms[|ms|-1].status.Failed? then 1 else 0
  }

  lemma {:induction false} CountsMean(ms: seq<Step>)
    ensures CountCompleted(ms) + CountFailed(ms) <= |ms|
    ensures CountCompleted(ms) > 0 <==> exists s :: s in ms && s.status.Completed?
    ensures CountFailed(ms) > 0 <==> exists s :: s in ms && s.status.Failed?
    ensures CountCompleted(ms) + CountFailed(ms) < |ms| <==> exists s :: s in ms && !s.status.Completed? && !s.status.Failed?
  {
    if ms != [] {
      var front, last := ms[..|ms|-1], ms[|ms|-1];
      CountsMean(front);
      assert last in ms && forall s :: s in ms <==> s in front || s == last;
    }
  }

  function StatusFor(completed: nat, failed: nat, pending: nat): AggregateStatus {
    if pending > 0 then AggregatePending
    else if failed == 0 then AggregateCompleted
    else if completed > 0 then AggregatePartialFailed
    else AggregateFailed
  }

  function TargetResultOf(step: Step): TargetResult {
    TargetResult(step.metadata.target, step.stepID, step.status, step.attempt, step.reason)
  }

  function TargetResults(ms: seq<Step>): (ts: seq<TargetResult>)
    ensures |ts| == |ms| && forall i :: 0 <= i < |ms| ==> ts[i] == TargetResultOf(ms[i])
  {
    seq(|ms|, i requires 0 <= i < |ms| => TargetResultOf(ms[i]))
  }

  function MaxConcurrencyOf(step: Step): int {
    if step.metadata.maxConcurrency.Some? then step.metadata.maxConcurrency.value else 0
  }

  /** The aggregate the members make up: their number per status, and their target results in order. */
  ghost function ResultFor(steps: seq<Step>, id: string): (r: AggregateResult)
    requires id in FirstIDs(steps)
  {
    var ms := Members(steps, id);
    FirstIDsAre(steps); MembersAre(steps, id); CountsMean(ms);
    var c, f := CountCompleted(ms), CountFailed(ms);
    var expected := ms[0].metadata.aggregateExpected;
    AggregateResult(id, ms[0].metadata.aggregateScope, ms[0].metadata.labels,
                    if expected <= 0 then |ms| else expected, MaxConcurrencyOf(ms[0]),
                    StatusFor(c, f, |ms| - c - f), c, f, |ms| - c - f, SortTargets(TargetResults(ms)))
  }

  ghost function AggregatesOf(steps: seq<Step>): (rs: seq<AggregateResult>)
    ensures |rs| == |FirstIDs(steps)|
    ensures forall i :: 0 <= i < |rs| ==> rs[i] == ResultFor(steps, FirstIDs(steps)[i])
  {
    seq(|FirstIDs(steps)|, i requires 0 <= i < |FirstIDs(steps)| => ResultFor(steps, FirstIDs(steps)[i]))
  }

  // ---- the fold itself ----

  /** Counters and targets of a bucket while steps are still being counted. */
  ghost predicate Counts(r: AggregateResult, ms: seq<Step>) {
    && r.completed == CountCompleted(ms) && r.failed == CountFailed(ms)
    && r.completed + r.failed + r.pending == |ms|
    && r.targets == TargetResults(ms)
  }

  ghost predicate BucketFor(r: AggregateResult, steps: seq<Step>, id: string) {
    var ms := Members(steps, id);
    && Counts(r, ms)
    && |ms| > 0
    && r.aggregateID == id && r.scope == ms[0].metadata.aggregateScope && r.labels == ms[0].metadata.labels
    && r.expected == ms[0].metadata.aggregateExpected && r.maxConcurrency == MaxConcurrencyOf(ms[0])
  }

  ghost predicate BucketsFor(buckets: map<string, AggregateResult>, order: seq<string>, steps: seq<Step>) {
    && order == FirstIDs(steps)
    && (forall id :: id in order <==> id in buckets)
    && (forall id :: id in buckets ==> BucketFor(buckets[id], steps, id))
  }

  method AddToBucket(bucket: AggregateResult, step: Step, ghost ms: seq<Step>) returns (r: AggregateResult)
    requires Counts(bucket, ms)
    ensures Counts(r, ms + [step])
    ensures r.aggregateID == bucket.aggregateID && r.scope == bucket.scope && r.labels == bucket.labels
            && r.expected == bucket.expected && r.maxConcurrency == bucket.maxConcurrency
  {
    assert (ms + [step])[..|ms|] == ms;
    r := bucket.(targets := bucket.targets + [TargetResultOf(step)]);
    match step.status {
      case Completed => r := r.(completed := r.completed + 1);
      case Failed => r := r.(failed := r.failed + 1);
      case _ => r := r.(pending := r.pending + 1);
    }
  }

  lemma MembersSnoc(steps: seq<Step>, step: Step, id: string)
    ensures Members(steps + [step], id) == Members(steps, id) + if MemberOf(step, id) then [step] else []
  {
    assert (steps + [step])[..|steps|] == steps;
  }

  lemma FirstIDsSnoc(steps: seq<Step>, step: Step)
    ensures FirstIDs(steps + [step]) ==
              if Tagged(step) && step.metadata.aggregateID !in FirstIDs(steps)
              then FirstIDs(steps) + [step.metadata.aggregateID] else FirstIDs(steps)
  {
    assert (steps + [step])[..|steps|] == steps;
  }

  lemma BucketKept(r: AggregateResult, steps: seq<Step>, step: Step, id: string)
    requires BucketFor(r, steps, id) && !MemberOf(step, id)
    ensures BucketFor(r, steps + [step], id)
  {
    MembersSnoc(steps, step, id);
    assert Members(steps, id) + [] == Members(steps, id);
  }

  lemma OtherBucketsKept(buckets: map<string, AggregateResult>, order: seq<string>, steps: seq<Step>, step: Step)
    requires BucketsFor(buckets, order, steps)
    ensures forall other :: other in buckets && !MemberOf(step, other) ==> BucketFor(buckets[other], steps + [step], other)
  {
    forall other | other in buckets && !MemberOf(step, other) ensures BucketFor(buckets[other], steps + [step], other) {
      BucketKept(buckets[other], steps, step, other);
    }
  }

  lemma BucketsGrow(buckets: map<string, AggregateResult>, order: seq<string>, steps: seq<Step>, step: Step, bucket: AggregateResult)
    requires Tagged(step) && BucketsFor(buckets, order, steps)
    requires BucketFor(bucket, steps + [step], step.metadata.aggregateID)
    ensures BucketsFor(buckets[step.metadata.aggregateID := bucket],
                       if step.metadata.aggregateID in buckets then order else order + [step.metadata.aggregateID],
                       steps + [step])
  {
    var id := step.metadata.aggregateID;
    var after := buckets[id := bucket];
    FirstIDsSnoc(steps, step);
    OtherBucketsKept(buckets, order, steps, step);
    forall other | other in after ensures BucketFor(after[other], steps + [step], other) {
      assert other != id ==> after[other] == buckets[other] && !MemberOf(step, other);
    }
  }

  method CountStep(step: Step, buckets: map<string, AggregateResult>, order: seq<string>, ghost steps: seq<Step>)
    returns (buckets': map<string, AggregateResult>, order': seq<string>)
    requires Tagged(step) && BucketsFor(buckets, order, steps)
    ensures BucketsFor(buckets', order', steps + [step])
  {
    var id := step.metadata.aggregateID;
    order' := order;
    var bucket;
    if id in buckets {
      bucket := buckets[id];
      assert BucketFor(bucket, steps, id);
    } else {
      bucket := AggregateResult(id, step.metadata.aggregateScope, step.metadata.labels, step.metadata.aggregateExpected,
                                MaxConcurrencyOf(step), AggregatePending, 0, 0, 0, []);
      order' := order + [id];
      NoMembers(steps, id);
    }
    bucket := AddToBucket(bucket, step, Members(steps, id));
    MembersSnoc(steps, step, id);
    BucketsGrow(buckets, order, steps, step, bucket);
    buckets' := buckets[id := bucket];
  }

  lemma BucketsUntouched(buckets: map<string, AggregateResult>, order: seq<string>, steps: seq<Step>, step: Step)
    requires !Tagged(step) && BucketsFor(buckets, order, steps)
    ensures BucketsFor(buckets, order, steps + [step])
  {
    FirstIDsSnoc(steps, step);
    forall id | id in buckets ensures BucketFor(buckets[id], steps + [step], id) {
      BucketKept(buckets[id], steps, step, id);
    }
  }

  method FinishBucket(bucket: AggregateResult, ghost steps: seq<Step>) returns (r: AggregateResult)
    requires bucket.aggregateID in FirstIDs(steps) && BucketFor(bucket, steps, bucket.aggregateID)
    ensures r == ResultFor(steps, bucket.aggregateID)
  {
    r := bucket;
    if r.expected <= 0 {
      r := r.(expected := |r.targets|);
    }
    r := r.(targets := SortTargets(r.targets), status := StatusFor(r.completed, r.failed, r.pending));
  }

  method CollectBuckets(steps: seq<Step>) returns (buckets: map<string, AggregateResult>, order: seq<string>)
    ensures BucketsFor(buckets, order, steps)
  {
    buckets, order := map[], [];
    for i := 0 to |steps|
      invariant BucketsFor(buckets, order, steps[..i])
    {
      assert steps[..i+1] == steps[..i] + [steps[i]];
      if Tagged(steps[i]) {
        buckets, order := CountStep(steps[i], buckets, order, steps[..i]);
      } else {
        BucketsUntouched(buckets, order, steps[..i], steps[i]);
      }
    }
    assert steps[..|steps|] == steps;
  }

  method FinishAt(buckets: map<string, AggregateResult>, order: seq<string>, ghost steps: seq<Step>, i: nat)
    returns (r: AggregateResult)
    requires BucketsFor(buckets, order, steps) && i < |order|
    ensures r == ResultFor(steps, order[i])
  {
    assert order[i] in order && BucketFor(buckets[order[i]], steps, order[i]);
    r := FinishBucket(buckets[order[i]], steps);
  }

  method FinishBuckets(buckets: map<string, AggregateResult>, order: seq<string>, ghost steps: seq<Step>)
    returns (results: seq<AggregateResult>)
    requires BucketsFor(buckets, order, steps)
    ensures |results| == |order| && forall i :: 0 <= i < |results| ==> results[i] == ResultFor(steps, order[i])
  {
    results := [];
    for i := 0 to |order|
      invariant |results| == i
      invariant forall j :: 0 <= j < i ==> results[j] == ResultFor(steps, order[j])
    {
      var r := FinishAt(buckets, order, steps, i);
      results := results + [r];
    }
  }

  method AggregateResultsFromSteps(steps: seq<Step>) returns (results: seq<AggregateResult>)
    ensures results == AggregatesOf(steps)
  {
    var buckets, order := CollectBuckets(steps);
    // `order` already lists the ids by first occurrence, so sorting it by that key moves nothing.
    results := FinishBuckets(buckets, order, steps);
    assert results == AggregatesOf(steps);
  }

  // ---- what the fold conserves ----

  function TaggedSteps(steps: seq<Step>): seq<Step> {
    if steps == [] then []
    else TaggedSteps(steps[..|steps|-1]) + if Tagged(steps[|steps|-1]) then [steps[|steps|-1]] else []
  }

  /** The members of the listed aggregates, one aggregate after the other. */
  function Gathered(steps: seq<Step>, ids: seq<string>): seq<Step> {
    if ids == [] then [] else Gathered(steps, ids[..|ids|-1]) + Members(steps, ids[|ids|-1])
  }

  lemma {:induction false} GatheredUntouched(steps: seq<Step>, last: Step, ids: seq<string>)
    requires forall id :: id in ids ==> !MemberOf(last, id)
    ensures Gathered(steps + [last], ids) == Gathered(steps, ids)
  {
    if ids != [] {
      GatheredUntouched(steps, last, ids[..|ids|-1]);
      assert (steps + [last])[..|steps|] == steps;
    }
  }

  lemma {:induction false} GatheredGains(steps: seq<Step>, last: Step, ids: seq<string>)
    requires Tagged(last) && last.metadata.aggregateID in ids
    requires forall i, j :: 0 <= i < j < |ids| ==> ids[i] != ids[j]
    ensures multiset(Gathered(steps + [last], ids)) == multiset(Gathered(steps, ids)) + multiset{last}
  {
    var front, id := ids[..|ids|-1], ids[|ids|-1];
    assert (steps + [last])[..|steps|] == steps;
    if MemberOf(last, id) {
      GatheredUntouched(steps, last, front);
    } else {
      GatheredGains(steps, last, front);
    }
  }

  lemma NewAggregateGathers(front: seq<Step>, last: Step)
    requires Tagged(last) && last.metadata.aggregateID !in FirstIDs(front)
    ensures Gathered(front + [last], FirstIDs(front + [last])) == Gathered(front, FirstIDs(front)) + [last]
  {
    var id := last.metadata.aggregateID;
    var ids := FirstIDs(front);
    FirstIDsSnoc(front, last);
    assert (ids + [id])[..|ids|] == ids;
    GatheredUntouched(front, last, ids);
    NoMembers(front, id);
    MembersSnoc(front, last, id);
  }

  lemma GatheredGrows(front: seq<Step>, last: Step)
    ensures multiset(Gathered(front + [last], FirstIDs(front + [last])))
            == multiset(Gathered(front, FirstIDs(front))) + if Tagged(last) then multiset{last} else multiset{}
  {
    FirstIDsSnoc(front, last);
    if !Tagged(last) {
      GatheredUntouched(front, last, FirstIDs(front));
    } else if last.metadata.aggregateID in FirstIDs(front) {
      FirstIDsAre(front);
      GatheredGains(front, last, FirstIDs(front));
    } else {
      NewAggregateGathers(front, last);
    }
  }

  /** Every tagged step lands in exactly one aggregate, as often as it occurs. */
  lemma {:induction false} AggregatesConserveSteps(steps: seq<Step>)
    ensures multiset(Gathered(steps, FirstIDs(steps))) == multiset(TaggedSteps(steps))
  {
    if steps != [] {
      var front, last := steps[..|steps|-1], steps[|steps|-1];
      AggregatesConserveSteps(front);
      assert front + [last] == steps;
      GatheredGrows(front, last);
    }
  }

  /** Completed, failed and pending add up to the targets, which are the members' results in target order. */
  lemma CountsConserveTargets(steps: seq<Step>, r: AggregateResult)
    requires r in AggregatesOf(steps)
    ensures r.completed + r.failed + r.pending == |r.targets| == |Members(steps, r.aggregateID)|
    ensures multiset(r.targets) == multiset(TargetResults(Members(steps, r.aggregateID)))
    ensures SortedTargets(r.targets)
  {
    var i :| 0 <= i < |AggregatesOf(steps)| && AggregatesOf(steps)[i] == r;
    SortTargetsSorts(TargetResults(Members(steps, r.aggregateID)));
  }

  /** Position of the first member of an aggregate. */
  ghost predicate FirstAt(steps: seq<Step>, id: string, k: nat) {
    k < |steps| && MemberOf(steps[k], id) && forall j :: 0 <= j < k ==> !MemberOf(steps[j], id)
  }

  /** Aggregates are reported in the order in which their first members stand in the plan. */
  lemma {:induction false} AggregatesInFirstOccurrenceOrder(steps: seq<Step>, i: nat, j: nat, ki: nat, kj: nat)
    requires i < j < |FirstIDs(steps)|
    requires FirstAt(steps, FirstIDs(steps)[i], ki) && FirstAt(steps, FirstIDs(steps)[j], kj)
    ensures ki < kj
  {
    var n := |steps|;
    var front, last := steps[..n-1], steps[n-1];
    var ids := FirstIDs(steps);
    FirstIDsAre(front);
    assert ids[i] in FirstIDs(front);
    var s :| s in front && MemberOf(s, ids[i]);
    var m :| 0 <= m < n - 1 && front[m] == s;
    assert ki < n - 1;
    if kj < n - 1 {
      FirstIDsAre(steps);
      assert front[kj] in front;
      assert ids[j] in FirstIDs(front);
      assert j < |FirstIDs(front)|;
      AggregatesInFirstOccurrenceOrder(front, i, j, ki, kj);
    }
  }
}

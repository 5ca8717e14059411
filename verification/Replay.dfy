/** Replay projections: a session's ordered events handed out to its cycles through an index, a cycle's facts
    grouped by target. Both agree with the plain filters. */
module Replay {
  import opened PlanModel

  datatype Event = Event(cycleID: string, eventID: string)

  /** The projection of one cycle: the ordered events that carry its id. */
  function CycleEvents(cycleID: string, events: seq<Event>): (r: seq<Event>)
    ensures forall e :: e in r <==> e in events && cycleID != "" && e.cycleID == cycleID
  {
    if events == [] then []
    else
      var last := events[|events|-1];
      assert forall e :: e in events <==> e in events[..|events|-1] || e == last;
      CycleEvents(cycleID, events[..|events|-1]) + if cycleID != "" && last.cycleID == cycleID then [last] else []
  }

  predicate Matched(cycles: seq<string>, e: Event) {
    e.cycleID != "" && e.cycleID in cycles
  }

  function UnmatchedEvents(cycles: seq<string>, events: seq<Event>): seq<Event> {
    if events == [] then []
    else UnmatchedEvents(cycles, events[..|events|-1]) + if Matched(cycles, events[|events|-1]) then [] else [events[|events|-1]]
  }

  // ---- what is picked, and in which order ----

  ghost predicate PickedAt<T(!new)>(all: seq<T>, keep: nat -> bool, picked: seq<T>, places: seq<nat>) {
    && |places| == |picked| && (forall m :: 0 <= m < |places| ==> places[m] < |all| && all[places[m]] == picked[m])
    && (forall m, n :: 0 <= m < n < |places| ==> places[m] < places[n])
    && (forall i: nat :: i in places <==> i < |all| && keep(i))
  }

  /** The elements at the places to keep, all of them and in their order. */
  ghost predicate Picked<T(!new)>(all: seq<T>, keep: nat -> bool, picked: seq<T>) {
    exists places: seq<nat> :: PickedAt(all, keep, picked, places)
  }

  lemma PickedNone<T(!new)>(keep: nat -> bool)
    ensures Picked<T>([], keep, [])
  {
    assert PickedAt<T>([], keep, [], []);
  }

  lemma PickedSnoc<T(!new)>(all: seq<T>, keep: nat -> bool, picked: seq<T>)
    requires all != [] && Picked(all[..|all|-1], keep, picked)
    ensures Picked(all, keep, picked + if keep(|all| - 1) then [all[|all|-1]] else [])
  {
    var n := |all| - 1;
    var places: seq<nat> :| PickedAt(all[..n], keep, picked, places);
    forall m | 0 <= m < |places| ensures places[m] < n {
      assert places[m] < |all[..n]|;
    }
    if keep(n) {
      assert PickedAt(all, keep, picked + [all[n]], places + [n]);
    } else {
      assert picked + [] == picked && PickedAt(all, keep, picked, places);
    }
  }

  lemma PickedSame<T(!new)>(all: seq<T>, keep: nat -> bool, like: nat -> bool, picked: seq<T>)
    requires Picked(all, keep, picked) && forall i: nat :: i < |all| ==> keep(i) == like(i)
    ensures Picked(all, like, picked)
  {
    var places: seq<nat> :| PickedAt(all, keep, picked, places);
    assert PickedAt(all, like, picked, places);
  }

  ghost function OfCycle(cycleID: string, events: seq<Event>): nat -> bool {
    (i: nat) => i < |events| && cycleID != "" && events[i].cycleID == cycleID
  }

  ghost function OfNoCycle(cycles: seq<string>, events: seq<Event>): nat -> bool {
    (i: nat) => i < |events| && (events[i].cycleID == "" || forall k :: 0 <= k < |cycles| ==> cycles[k] != events[i].cycleID)
  }

  /** The projection of a cycle is its events in the order of the session's. */
  lemma {:induction false} CycleEventsInOrder(cycleID: string, events: seq<Event>)
    ensures Picked(events, OfCycle(cycleID, events), CycleEvents(cycleID, events))
  {
    if events == [] {
      PickedNone<Event>(OfCycle(cycleID, events));
    } else {
      var front := events[..|events|-1];
      CycleEventsInOrder(cycleID, front);
      PickedSame(front, OfCycle(cycleID, front), OfCycle(cycleID, events), CycleEvents(cycleID, front));
      PickedSnoc(events, OfCycle(cycleID, events), CycleEvents(cycleID, front));
    }
  }

  /** Unmatched are the events without a cycle, or of one that is not listed, in the order of the session's. */
  lemma {:induction false} UnmatchedInOrder(cycles: seq<string>, events: seq<Event>)
    ensures Picked(events, OfNoCycle(cycles, events), UnmatchedEvents(cycles, events))
  {
    if events == [] {
      PickedNone<Event>(OfNoCycle(cycles, events));
    } else {
      var front := events[..|events|-1];
      UnmatchedInOrder(cycles, front);
      PickedSame(front, OfNoCycle(cycles, front), OfNoCycle(cycles, events), UnmatchedEvents(cycles, front));
      PickedSnoc(events, OfNoCycle(cycles, events), UnmatchedEvents(cycles, front));
    }
  }

  /** Which cycle an id is filed under: the last one that carries it. */
  function LastIndex(cycles: seq<string>, id: string): (r: Option<nat>)
    ensures r.Some? ==> r.value < |cycles| && cycles[r.value] == id && forall j :: r.value < j < |cycles| ==> cycles[j] != id
    ensures r.None? <==> id !in cycles
  {
    if cycles == [] then None
    else if cycles[|cycles|-1] == id then Some(|cycles| - 1)
    else
      assert forall c :: c in cycles <==> c in cycles[..|cycles|-1] || c == cycles[|cycles|-1];
      LastIndex(cycles[..|cycles|-1], id)
  }

  /** The events cycle `i` ends up with in the projection of the session. */
  function FiledUnder(cycles: seq<string>, i: nat, events: seq<Event>): seq<Event>
    requires i < |cycles|
  {
    if LastIndex(cycles, cycles[i]) == Some(i) then CycleEvents(cycles[i], events) else []
  }

  method IndexCycles(cycles: seq<string>) returns (index: map<string, nat>)
    ensures forall id :: id in index <==> id != "" && id in cycles
    ensures forall id :: id in index ==> LastIndex(cycles, id) == Some(index[id])
  {
    index := map[];
    for i := 0 to |cycles|
      invariant forall id :: id in index <==> id != "" && id in cycles[..i]
      invariant forall id :: id in index ==> LastIndex(cycles[..i], id) == Some(index[id])
    {
      assert cycles[..i+1][..i] == cycles[..i];
      if cycles[i] != "" {
        index := index[cycles[i] := i];
      }
    }
    assert cycles[..|cycles|] == cycles;
  }

  function AllFiled(cycles: seq<string>, events: seq<Event>): (r: seq<seq<Event>>)
    ensures |r| == |cycles| && forall i :: 0 <= i < |cycles| ==> r[i] == FiledUnder(cycles, i, events)
  {
    seq(|cycles|, i requires 0 <= i < |cycles| => FiledUnder(cycles, i, events))
  }

  lemma FileMatched(cycles: seq<string>, events: seq<Event>, e: Event)
    requires Matched(cycles, e)
    ensures var i := LastIndex(cycles, e.cycleID).value;
            AllFiled(cycles, events + [e]) == AllFiled(cycles, events)[i := AllFiled(cycles, events)[i] + [e]]
    ensures UnmatchedEvents(cycles, events + [e]) == UnmatchedEvents(cycles, events)
  {
    assert (events + [e])[..|events|] == events;
    var before, i := AllFiled(cycles, events), LastIndex(cycles, e.cycleID).value;
    forall j | 0 <= j < |cycles| ensures FiledUnder(cycles, j, events + [e]) == before[i := before[i] + [e]][j] { }
  }

  lemma FileUnmatched(cycles: seq<string>, events: seq<Event>, e: Event)
    requires !Matched(cycles, e)
    ensures AllFiled(cycles, events + [e]) == AllFiled(cycles, events)
    ensures UnmatchedEvents(cycles, events + [e]) == UnmatchedEvents(cycles, events) + [e]
  {
    assert (events + [e])[..|events|] == events;
    forall j | 0 <= j < |cycles| ensures FiledUnder(cycles, j, events + [e]) == FiledUnder(cycles, j, events) {
      assert cycles[j] in cycles;
    }
  }

  /** Hands out the ordered events of a session to its cycles; `cycles` lists the ordered cycles by id. */
  method BuildSessionProjection(cycles: seq<string>, events: seq<Event>) returns (filed: seq<seq<Event>>, unmatched: seq<Event>)
    ensures |filed| == |cycles| && forall i :: 0 <= i < |cycles| ==> filed[i] == FiledUnder(cycles, i, events)
    ensures unmatched == UnmatchedEvents(cycles, events)
  {
    var index := IndexCycles(cycles);
    filed, unmatched := seq(|cycles|, _ => []), [];
    assert filed == AllFiled(cycles, []);
    for k := 0 to |events|
      invariant filed == AllFiled(cycles, events[..k])
      invariant unmatched == UnmatchedEvents(cycles, events[..k])
    {
      var e := events[k];
      assert events[..k+1] == events[..k] + [e];
      if e.cycleID != "" && e.cycleID in index {
        FileMatched(cycles, events[..k], e);
        var i := index[e.cycleID];
        filed := filed[i := filed[i] + [e]];
      } else {
        FileUnmatched(cycles, events[..k], e);
        unmatched := unmatched + [e];
      }
    }
    assert events[..|events|] == events;
  }

  ghost predicate DistinctCycles(cycles: seq<string>) {
    forall i, j :: 0 <= i < j < |cycles| && cycles[i] != "" ==> cycles[i] != cycles[j]
  }

  /** The two ways to project agree on every cycle, for all events, exactly when no cycle id occurs twice. */
  lemma ProjectionsAgreeIffDistinct(cycles: seq<string>)
    ensures DistinctCycles(cycles) <==>
              forall i: nat, events :: i < |cycles| ==> FiledUnder(cycles, i, events) == CycleEvents(cycles[i], events)
  {
    if DistinctCycles(cycles) {
      forall i: nat, events | i < |cycles| ensures FiledUnder(cycles, i, events) == CycleEvents(cycles[i], events) {
        assert cycles[i] in cycles;
        if cycles[i] == "" {
          NoEventsWithoutID(events);
        }
      }
    } else {
      var i: nat, j: nat :| i < j < |cycles| && cycles[i] != "" && cycles[i] == cycles[j];
      var e := Event(cycles[i], "e");
      assert e in CycleEvents(cycles[i], [e]);
      assert FiledUnder(cycles, i, [e]) == [];
    }
  }

  lemma {:induction false} NoEventsWithoutID(events: seq<Event>)
    ensures CycleEvents("", events) == []
  {
    if events != [] {
      NoEventsWithoutID(events[..|events|-1]);
    }
  }

  function Gathered(filed: seq<seq<Event>>): multiset<Event> {
    if filed == [] then multiset{} else Gathered(filed[..|filed|-1]) + multiset(filed[|filed|-1])
  }

  lemma {:induction false} GatheredUpdate(filed: seq<seq<Event>>, i: nat, e: Event)
    requires i < |filed|
    ensures Gathered(filed[i := filed[i] + [e]]) == Gathered(filed) + multiset{e}
  {
    var n := |filed| - 1;
    if i == n {
      assert filed[i := filed[i] + [e]][..n] == filed[..n];
    } else {
      GatheredUpdate(filed[..n], i, e);
      assert filed[i := filed[i] + [e]][..n] == filed[..n][i := filed[i] + [e]];
    }
  }

  lemma {:induction false} GatheredEmpty(filed: seq<seq<Event>>)
    requires forall i :: 0 <= i < |filed| ==> filed[i] == []
    ensures Gathered(filed) == multiset{}
  {
    if filed != [] {
      GatheredEmpty(filed[..|filed|-1]);
    }
  }

  /** All places an event can be in after filing. */
  function Everywhere(cycles: seq<string>, events: seq<Event>): multiset<Event> {
    Gathered(AllFiled(cycles, events)) + multiset(UnmatchedEvents(cycles, events))
  }

  lemma NothingFiled(cycles: seq<string>)
    ensures Everywhere(cycles, []) == multiset{}
  {
    GatheredEmpty(AllFiled(cycles, []));
  }

  lemma FilesOne(cycles: seq<string>, front: seq<Event>, e: Event)
    ensures Everywhere(cycles, front + [e]) == Everywhere(cycles, front) + multiset{e}
  {
    if Matched(cycles, e) {
      FileMatched(cycles, front, e);
      GatheredUpdate(AllFiled(cycles, front), LastIndex(cycles, e.cycleID).value, e);
    } else {
      FileUnmatched(cycles, front, e);
    }
  }

  /** Every event of the session is in exactly one place: with the cycle it is filed under, or unmatched. */
  lemma {:induction false} EventsArePartitioned(cycles: seq<string>, events: seq<Event>)
    ensures Everywhere(cycles, events) == multiset(events)
  {
    if events == [] {
      NothingFiled(cycles);
    } else {
      var front, e := events[..|events|-1], events[|events|-1];
      EventsArePartitioned(cycles, front);
      FilesOne(cycles, front, e);
      assert events == front + [e];
    }
  }

  // ---- target slices ----

  /** A fact of a cycle, with the target it names, if any. */
  datatype Fact = Fact(target: Option<Target>, factID: string)

  datatype Kind = OfAttempts | OfActions | OfVerifications | OfArtifacts | OfHandles

  /** The facts of a cycle, or of one target in it, a list for every kind. */
  datatype Facts = Facts(
    attempts: seq<Fact>, actions: seq<Fact>, verifications: seq<Fact>, artifacts: seq<Fact>, handles: seq<Fact>)

  const NO_FACTS := Facts([], [], [], [], [])

  datatype TargetSlice = TargetSlice(target: Target, facts: Facts)

  function ListOf(fs: Facts, kind: Kind): seq<Fact> {
    match kind
    case OfAttempts => fs.attempts
    case OfActions => fs.actions
    case OfVerifications => fs.verifications
    case OfArtifacts => fs.artifacts
    case OfHandles => fs.handles
  }

  function WithFact(fs: Facts, filed: Filed): (r: Facts)
    ensures forall kind :: ListOf(r, kind) == if kind == filed.kind then ListOf(fs, kind) + [filed.fact] else ListOf(fs, kind)
  {
    match filed.kind
    case OfAttempts => fs.(attempts := fs.attempts + [filed.fact])
    case OfActions => fs.(actions := fs.actions + [filed.fact])
    case OfVerifications => fs.(verifications := fs.verifications + [filed.fact])
    case OfArtifacts => fs.(artifacts := fs.artifacts + [filed.fact])
    case OfHandles => fs.(handles := fs.handles + [filed.fact])
  }

  /** A fact and the list it comes from. */
  datatype Filed = Filed(kind: Kind, fact: Fact)

  function FiledAs(kind: Kind, list: seq<Fact>): (r: seq<Filed>)
    ensures |r| == |list| && forall i :: 0 <= i < |r| ==> r[i] == Filed(kind, list[i])
  {
    seq(|list|, i requires 0 <= i < |list| => Filed(kind, list[i]))
  }

  /** All facts in the order they are looked at. */
  function InOrder(cycle: Facts): seq<Filed> {
    FiledAs(OfAttempts, cycle.attempts) + FiledAs(OfActions, cycle.actions) + FiledAs(OfVerifications, cycle.verifications)
    + FiledAs(OfArtifacts, cycle.artifacts) + FiledAs(OfHandles, cycle.handles)
  }

  function Key(t: Target): string {
    t.targetID + ['\0'] + t.kind
  }

  predicate FactOf(f: Fact, key: string) {
    f.target.Some? && Key(f.target.value) == key
  }

  /** The facts of one target. */
  function FactsOf(list: seq<Fact>, key: string): seq<Fact> {
    if list == [] then []
    else
      var rest := FactsOf(list[..|list|-1], key);
      if FactOf(list[|list|-1], key) then rest + [list[|list|-1]] else rest
  }

  function SliceOf(all: seq<Filed>, key: string): Facts {
    if all == [] then NO_FACTS
    else
      var rest := SliceOf(all[..|all|-1], key);
      if FactOf(all[|all|-1].fact, key) then WithFact(rest, all[|all|-1]) else rest
  }

  /** The targets by first appearance of their key. */
  function FirstTargets(all: seq<Filed>): seq<Target> {
    if all == [] then []
    else
      var ts, last := FirstTargets(all[..|all|-1]), all[|all|-1].fact;
      if last.target.Some? && Key(last.target.value) !in KeysOf(ts) then ts + [last.target.value] else ts
  }

  function KeysOf(ts: seq<Target>): (r: seq<string>)
    ensures |r| == |ts| && forall i :: 0 <= i < |ts| ==> r[i] == Key(ts[i])
  {
    seq(|ts|, i requires 0 <= i < |ts| => Key(ts[i]))
  }

  ghost predicate SlicesFor(slices: seq<TargetSlice>, all: seq<Filed>) {
    && |slices| == |FirstTargets(all)|
    && forall i :: 0 <= i < |slices| ==>
         slices[i].target == FirstTargets(all)[i] && slices[i].facts == SliceOf(all, Key(slices[i].target))
  }

  lemma {:induction false} FirstTargetsAre(all: seq<Filed>)
    ensures forall i, j :: 0 <= i < j < |FirstTargets(all)| ==> Key(FirstTargets(all)[i]) != Key(FirstTargets(all)[j])
    ensures forall key :: key in KeysOf(FirstTargets(all)) <==> exists f :: f in all && FactOf(f.fact, key)
  {
    if all != [] {
      var front, last := all[..|all|-1], all[|all|-1];
      FirstTargetsAre(front);
      var ts, target := FirstTargets(front), last.fact.target;
      assert forall f :: f in all <==> f in front || f == last;
      if target.Some? && Key(target.value) !in KeysOf(ts) {
        assert KeysOf(ts + [target.value]) == KeysOf(ts) + [Key(target.value)];
        forall i | 0 <= i < |ts| ensures Key(ts[i]) != Key(target.value) {
          assert KeysOf(ts)[i] in KeysOf(ts);
        }
      }
      forall key ensures key in KeysOf(FirstTargets(all)) <==> exists f :: f in all && FactOf(f.fact, key) {
        if FactOf(last.fact, key) {
          assert last in all;
        }
      }
    }
  }

  lemma {:induction false} NoFacts(all: seq<Filed>, key: string)
    requires key !in KeysOf(FirstTargets(all))
    ensures SliceOf(all, key) == NO_FACTS
  {
    if all != [] {
      var front, target := all[..|all|-1], all[|all|-1].fact.target;
      var ts := FirstTargets(front);
      if target.Some? && Key(target.value) !in KeysOf(ts) {
        assert KeysOf(ts + [target.value]) == KeysOf(ts) + [Key(target.value)];
      }
      NoFacts(front, key);
    }
  }

  ghost function OnTarget(target: Target, list: seq<Fact>): nat -> bool {
    (i: nat) => i < |list| && list[i].target.Some? && Key(list[i].target.value) == Key(target)
  }

  /** What a slice lists of one kind is the target's facts, in the order of the cycle's. */
  lemma {:induction false} FactsInOrder(list: seq<Fact>, target: Target)
    ensures Picked(list, OnTarget(target, list), FactsOf(list, Key(target)))
  {
    if list == [] {
      PickedNone<Fact>(OnTarget(target, list));
    } else {
      var front := list[..|list|-1];
      FactsInOrder(front, target);
      PickedSame(front, OnTarget(target, front), OnTarget(target, list), FactsOf(front, Key(target)));
      PickedSnoc(list, OnTarget(target, list), FactsOf(front, Key(target)));
      assert FactsOf(front, Key(target)) + [] == FactsOf(front, Key(target));
    }
  }

  /** A fact that names a target nothing before it has named. */
  ghost function Leads(all: seq<Filed>): nat -> bool {
    (i: nat) => i < |all| && all[i].fact.target.Some?
                && forall j :: 0 <= j < i && all[j].fact.target.Some? ==>
                     Key(all[j].fact.target.value) != Key(all[i].fact.target.value)
  }

  lemma LeadsMore(all: seq<Filed>)
    requires all != []
    ensures var front, last := all[..|all|-1], all[|all|-1].fact;
            && (forall i: nat :: i < |front| ==> Leads(front)(i) == Leads(all)(i))
            && (Leads(all)(|front|) <==> last.target.Some? && Key(last.target.value) !in KeysOf(FirstTargets(front)))
  {
    var front, last := all[..|all|-1], all[|all|-1].fact;
    FirstTargetsAre(front);
    if last.target.Some? && !Leads(all)(|front|) {
      var j :| 0 <= j < |front| && all[j].fact.target.Some? && Key(all[j].fact.target.value) == Key(last.target.value);
      assert front[j] in front;
    }
    if last.target.Some? && Key(last.target.value) in KeysOf(FirstTargets(front)) {
      var f :| f in front && FactOf(f.fact, Key(last.target.value));
      var j :| 0 <= j < |front| && front[j] == f;
      assert all[j] == f;
    }
  }

  /** The slices come in the order in which their targets are first named. */
  lemma {:induction false} TargetsInOrder(all: seq<Filed>) returns (leaders: seq<Filed>)
    ensures Picked(all, Leads(all), leaders) && |leaders| == |FirstTargets(all)|
    ensures forall m :: 0 <= m < |leaders| ==> leaders[m].fact.target == Some(FirstTargets(all)[m])
  {
    if all == [] {
      leaders := [];
      PickedNone<Filed>(Leads(all));
    } else {
      var front := all[..|all|-1];
      var before := TargetsInOrder(front);
      LeadsMore(all);
      PickedSame(front, Leads(front), Leads(all), before);
      PickedSnoc(all, Leads(all), before);
      leaders := before + if Leads(all)(|front|) then [all[|front|]] else [];
    }
  }

  function Grown(slice: TargetSlice, f: Filed): TargetSlice {
    slice.(facts := WithFact(slice.facts, f))
  }

  function Opened(f: Filed): TargetSlice
    requires f.fact.target.Some?
  {
    Grown(TargetSlice(f.fact.target.value, NO_FACTS), f)
  }

  /** Adds one fact to the slice of its target, starting the slice when it is the first. */
  lemma SlicesGrow(slices: seq<TargetSlice>, all: seq<Filed>, f: Filed, i: nat)
    requires SlicesFor(slices, all) && f.fact.target.Some? && i <= |slices|
    requires i < |slices| ==> Key(slices[i].target) == Key(f.fact.target.value)
    requires i == |slices| ==> Key(f.fact.target.value) !in KeysOf(FirstTargets(all))
    ensures SlicesFor(if i < |slices| then slices[i := Grown(slices[i], f)] else slices + [Opened(f)], all + [f])
  {
    var more, key := all + [f], Key(f.fact.target.value);
    assert more[..|all|] == all;
    FirstTargetsAre(all);
    if i < |slices| {
      assert KeysOf(FirstTargets(all))[i] == key;
    } else {
      NoFacts(all, key);
      forall j | 0 <= j < |slices| ensures Key(slices[j].target) != key {
        assert KeysOf(FirstTargets(all))[j] == Key(slices[j].target);
      }
    }
  }

  /** The slices and the index are those of the facts so far. */
  ghost predicate Grouped(slices: seq<TargetSlice>, index: map<string, nat>, all: seq<Filed>) {
    && SlicesFor(slices, all)
    && (forall key :: key in index <==> key in KeysOf(FirstTargets(all)))
    && (forall key :: key in index ==> index[key] < |slices| && Key(slices[index[key]].target) == key)
  }

  lemma GroupedUntouched(slices: seq<TargetSlice>, index: map<string, nat>, all: seq<Filed>, f: Filed)
    requires Grouped(slices, index, all) && f.fact.target.None?
    ensures Grouped(slices, index, all + [f])
  {
    assert (all + [f])[..|all|] == all;
    forall i | 0 <= i < |slices| ensures slices[i].facts == SliceOf(all + [f], Key(slices[i].target)) {
      assert SliceOf(all + [f], Key(slices[i].target)) == SliceOf(all, Key(slices[i].target));
    }
  }

  /** A fact whose slice is open already. */
  lemma GroupedGrows(slices: seq<TargetSlice>, index: map<string, nat>, all: seq<Filed>, f: Filed)
    requires Grouped(slices, index, all) && f.fact.target.Some? && Key(f.fact.target.value) in index
    ensures var i := index[Key(f.fact.target.value)]; Grouped(slices[i := Grown(slices[i], f)], index, all + [f])
  {
    SlicesGrow(slices, all, f, index[Key(f.fact.target.value)]);
    SameTargets(all, f);
  }

  /** A fact that opens a slice of its own. */
  lemma GroupedOpens(slices: seq<TargetSlice>, index: map<string, nat>, all: seq<Filed>, f: Filed)
    requires Grouped(slices, index, all) && f.fact.target.Some? && Key(f.fact.target.value) !in index
    ensures Grouped(slices + [Opened(f)], index[Key(f.fact.target.value) := |slices|], all + [f])
  {
    SlicesGrow(slices, all, f, |slices|);
    OneMoreTarget(all, f);
    IndexOpens(slices, index, KeysOf(FirstTargets(all)), Opened(f));
  }

  /** The index with the new slice's key. */
  lemma IndexOpens(slices: seq<TargetSlice>, index: map<string, nat>, keys: seq<string>, added: TargetSlice)
    requires forall key :: key in index <==> key in keys
    requires forall key :: key in index ==> index[key] < |slices| && Key(slices[index[key]].target) == key
    ensures var key, more := Key(added.target), slices + [added];
            var next := index[key := |slices|];
            && (forall x :: x in next <==> x in keys + [key])
            && (forall x :: x in next ==> next[x] < |more| && Key(more[next[x]].target) == x)
  {
  }

  lemma SameTargets(all: seq<Filed>, f: Filed)
    requires f.fact.target.Some? && Key(f.fact.target.value) in KeysOf(FirstTargets(all))
    ensures FirstTargets(all + [f]) == FirstTargets(all)
  {
    assert (all + [f])[..|all|] == all;
  }

  lemma OneMoreTarget(all: seq<Filed>, f: Filed)
    requires f.fact.target.Some? && Key(f.fact.target.value) !in KeysOf(FirstTargets(all))
    ensures KeysOf(FirstTargets(all + [f])) == KeysOf(FirstTargets(all)) + [Key(f.fact.target.value)]
  {
    assert (all + [f])[..|all|] == all;
  }

  method AddFact(slices: seq<TargetSlice>, index: map<string, nat>, ghost all: seq<Filed>, f: Filed)
    returns (slices': seq<TargetSlice>, index': map<string, nat>)
    requires Grouped(slices, index, all) && f.fact.target.Some?
    ensures Grouped(slices', index', all + [f])
  {
    var key := Key(f.fact.target.value);
    if key in index {
      GroupedGrows(slices, index, all, f);
      var i := index[key];
      slices', index' := slices[i := Grown(slices[i], f)], index;
    } else {
      GroupedOpens(slices, index, all, f);
      slices', index' := slices + [Opened(f)], index[key := |slices|];
    }
  }

  /** The loop over the facts of one kind. */
  method AddFacts(slices: seq<TargetSlice>, index: map<string, nat>, ghost all: seq<Filed>, kind: Kind, list: seq<Fact>)
    returns (slices': seq<TargetSlice>, index': map<string, nat>)
    requires Grouped(slices, index, all)
    ensures Grouped(slices', index', all + FiledAs(kind, list))
  {
    slices', index' := slices, index;
    assert all + FiledAs(kind, list)[..0] == all;
    for k := 0 to |list|
      invariant Grouped(slices', index', all + FiledAs(kind, list)[..k])
    {
      ghost var before := all + FiledAs(kind, list)[..k];
      assert all + FiledAs(kind, list)[..k+1] == before + [Filed(kind, list[k])];
      if list[k].target.Some? {
        slices', index' := AddFact(slices', index', before, Filed(kind, list[k]));
      } else {
        GroupedUntouched(slices', index', before, Filed(kind, list[k]));
      }
    }
    assert FiledAs(kind, list)[..|list|] == FiledAs(kind, list);
  }

  function OfKind(all: seq<Filed>, kind: Kind): seq<Fact> {
    if all == [] then []
    else
      var rest := OfKind(all[..|all|-1], kind);
      if all[|all|-1].kind == kind then rest + [all[|all|-1].fact] else rest
  }

  lemma {:induction false} OfKindAppend(all: seq<Filed>, more: seq<Filed>, kind: Kind)
    ensures OfKind(all + more, kind) == OfKind(all, kind) + OfKind(more, kind)
  {
    if more == [] {
      assert all + more == all;
    } else {
      OfKindAppend(all, more[..|more|-1], kind);
      assert (all + more)[..|all + more|-1] == all + more[..|more|-1];
    }
  }

  /** What a list contributes to the facts of a kind. */
  function Share(filed: Kind, list: seq<Fact>, kind: Kind): seq<Fact> {
    if filed == kind then list else []
  }

  lemma {:induction false} OfKindFiled(filed: Kind, list: seq<Fact>, kind: Kind)
    ensures OfKind(FiledAs(filed, list), kind) == Share(filed, list, kind)
  {
    if list != [] {
      OfKindFiled(filed, list[..|list|-1], kind);
      assert FiledAs(filed, list)[..|list|-1] == FiledAs(filed, list[..|list|-1]);
    }
  }

  lemma OfKindJoin(a: seq<Filed>, b: seq<Filed>, c: seq<Filed>, d: seq<Filed>, e: seq<Filed>, kind: Kind)
    ensures OfKind(a + b + c + d + e, kind)
            == OfKind(a, kind) + OfKind(b, kind) + OfKind(c, kind) + OfKind(d, kind) + OfKind(e, kind)
  {
    OfKindAppend(a, b, kind);
    OfKindAppend(a + b, c, kind);
    OfKindAppend(a + b + c, d, kind);
    OfKindAppend(a + b + c + d, e, kind);
  }

  lemma OneShare(cycle: Facts, kind: Kind)
    ensures Share(OfAttempts, cycle.attempts, kind) + Share(OfActions, cycle.actions, kind)
            + Share(OfVerifications, cycle.verifications, kind) + Share(OfArtifacts, cycle.artifacts, kind)
            + Share(OfHandles, cycle.handles, kind)
            == ListOf(cycle, kind)
  {
    match kind
    case OfAttempts =>
    case OfActions =>
    case OfVerifications =>
    case OfArtifacts =>
    case OfHandles =>
  }

  lemma InOrderKeepsLists(cycle: Facts, kind: Kind)
    ensures OfKind(InOrder(cycle), kind) == ListOf(cycle, kind)
  {
    OfKindJoin(FiledAs(OfAttempts, cycle.attempts), FiledAs(OfActions, cycle.actions),
               FiledAs(OfVerifications, cycle.verifications), FiledAs(OfArtifacts, cycle.artifacts),
               FiledAs(OfHandles, cycle.handles), kind);
    OfKindFiled(OfAttempts, cycle.attempts, kind);
    OfKindFiled(OfActions, cycle.actions, kind);
    OfKindFiled(OfVerifications, cycle.verifications, kind);
    OfKindFiled(OfArtifacts, cycle.artifacts, kind);
    OfKindFiled(OfHandles, cycle.handles, kind);
    OneShare(cycle, kind);
  }

  /** A slice holds, kind by kind, the facts of its target. */
  lemma {:induction false} SliceHolds(all: seq<Filed>, key: string, kind: Kind)
    ensures ListOf(SliceOf(all, key), kind) == FactsOf(OfKind(all, kind), key)
  {
    if all != [] {
      var front, last := all[..|all|-1], all[|all|-1];
      SliceHolds(front, key, kind);
      if last.kind == kind {
        var list := OfKind(all, kind);
        assert list[|list|-1] == last.fact && list[..|list|-1] == OfKind(front, kind);
      }
    }
  }

  /** One slice per target, by first appearance; in each of its lists exactly the target's facts of that kind, in order. */
  ghost predicate Sliced(slices: seq<TargetSlice>, cycle: Facts) {
    && |slices| == |FirstTargets(InOrder(cycle))|
    && (forall i :: 0 <= i < |slices| ==> slices[i].target == FirstTargets(InOrder(cycle))[i])
    && (forall i, kind :: 0 <= i < |slices| ==>
          ListOf(slices[i].facts, kind) == FactsOf(ListOf(cycle, kind), Key(slices[i].target)))
  }

  lemma SlicesAreSliced(slices: seq<TargetSlice>, cycle: Facts)
    requires SlicesFor(slices, InOrder(cycle))
    ensures Sliced(slices, cycle)
  {
    forall i, kind | 0 <= i < |slices|
      ensures ListOf(slices[i].facts, kind) == FactsOf(ListOf(cycle, kind), Key(slices[i].target))
    {
      SliceHolds(InOrder(cycle), Key(slices[i].target), kind);
      InOrderKeepsLists(cycle, kind);
    }
  }

  /** Groups the facts of a cycle by target, kind after kind, through an index from keys to slices. */
  method TargetSlicesFromCycle(cycle: Facts) returns (slices: seq<TargetSlice>)
    ensures Sliced(slices, cycle)
  {
    slices := [];
    var index: map<string, nat> := map[];
    ghost var a, b := FiledAs(OfAttempts, cycle.attempts), FiledAs(OfActions, cycle.actions);
    ghost var c, d := FiledAs(OfVerifications, cycle.verifications), FiledAs(OfArtifacts, cycle.artifacts);
    assert [] + a == a;
    slices, index := AddFacts(slices, index, [], OfAttempts, cycle.attempts);
    slices, index := AddFacts(slices, index, a, OfActions, cycle.actions);
    slices, index := AddFacts(slices, index, a + b, OfVerifications, cycle.verifications);
    slices, index := AddFacts(slices, index, a + b + c, OfArtifacts, cycle.artifacts);
    slices, index := AddFacts(slices, index, a + b + c + d, OfHandles, cycle.handles);
    SlicesAreSliced(slices, cycle);
  }

  lemma {:induction false} FactsOfCount(list: seq<Fact>, key: string, f: Fact)
    ensures multiset(FactsOf(list, key))[f] == if FactOf(f, key) then multiset(list)[f] else 0
  {
    if list != [] {
      var front, last := list[..|list|-1], list[|list|-1];
      FactsOfCount(front, key, f);
      assert list == front + [last];
    }
  }

  lemma {:induction false} FiledInOrder(cycle: Facts, kind: Kind, f: Fact)
    requires f in ListOf(cycle, kind)
    ensures Filed(kind, f) in InOrder(cycle)
  {
    var i :| 0 <= i < |ListOf(cycle, kind)| && ListOf(cycle, kind)[i] == f;
    assert Filed(kind, f) == FiledAs(kind, ListOf(cycle, kind))[i];
  }

  lemma TargetHasSlice(all: seq<Filed>, filed: Filed) returns (i: nat)
    requires filed in all && filed.fact.target.Some?
    ensures i < |FirstTargets(all)|
    ensures forall j :: 0 <= j < |FirstTargets(all)| ==> (Key(FirstTargets(all)[j]) == Key(filed.fact.target.value) <==> j == i)
  {
    FirstTargetsAre(all);
    var key := Key(filed.fact.target.value);
    assert key in KeysOf(FirstTargets(all));
    i :| 0 <= i < |FirstTargets(all)| && KeysOf(FirstTargets(all))[i] == key;
  }

  /** Every targeted fact is in the slice of its target, in the list of its kind as often as in the cycle's, and in
      that list of no other slice. */
  lemma FactsHaveOneSlice(slices: seq<TargetSlice>, cycle: Facts, kind: Kind, f: Fact) returns (i: nat)
    requires Sliced(slices, cycle) && f in ListOf(cycle, kind) && f.target.Some?
    ensures i < |slices| && multiset(ListOf(slices[i].facts, kind))[f] == multiset(ListOf(cycle, kind))[f] > 0
    ensures forall j :: 0 <= j < |slices| && j != i ==> multiset(ListOf(slices[j].facts, kind))[f] == 0
  {
    FiledInOrder(cycle, kind, f);
    i := TargetHasSlice(InOrder(cycle), Filed(kind, f));
    forall j | 0 <= j < |slices|
      ensures multiset(ListOf(slices[j].facts, kind))[f] == if j == i then multiset(ListOf(cycle, kind))[f] else 0
    {
      FactsOfCount(ListOf(cycle, kind), Key(slices[j].target), f);
    }
  }

  /** Two targets share a slice exactly when they are the same, as long as no target id holds a zero byte. */
  lemma KeyTellsTargets(s: Target, t: Target)
    requires '\0' !in s.targetID && '\0' !in t.targetID
    ensures Key(s) == Key(t) ==> s == t
  {
    if Key(s) == Key(t) {
      var m, n := |s.targetID|, |t.targetID|;
      assert forall i :: 0 <= i < m ==> Key(s)[i] == s.targetID[i] != '\0';
      assert forall i :: 0 <= i < n ==> Key(t)[i] == t.targetID[i] != '\0';
      assert Key(s)[m] == '\0' && Key(t)[n] == '\0';
      assert m == n;
      assert s.targetID == Key(s)[..m] && t.targetID == Key(t)[..n];
      assert s.kind == Key(s)[m+1..] && t.kind == Key(t)[n+1..];
    }
  }
}

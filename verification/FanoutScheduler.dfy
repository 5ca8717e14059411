/** The goroutines of a fan-out round as a state machine: one launcher, a counting semaphore, a wait group, and one
    result slot per prepared step. Any interleaving of their steps is a schedule. */
module FanoutScheduler {
  import opened PlanModel

  datatype Stage = Unlaunched | Computing | Written | Released | Finished

  /** `acquired` says the launcher holds a semaphore slot for the goroutine it is about to start; `writes` counts
      the writes to each slot. */
  datatype Pool<T> = Pool(
    next: nat, acquired: bool, semaphore: nat, waiting: nat, joined: bool,
    stages: seq<Stage>, slots: seq<Option<T>>, writes: seq<nat>)

  datatype Event = Acquire | Launch | Write(worker: nat) | Release(worker: nat) | Finish(worker: nat) | Join

  function Start<T>(n: nat): Pool<T> {
    Pool(0, false, 0, 0, false, seq(n, _ => Unlaunched), seq(n, _ => None), seq(n, _ => 0))
  }

  predicate At<T>(p: Pool<T>, worker: nat, stage: Stage) {
    worker < |p.stages| && p.stages[worker] == stage
  }

  predicate Enabled<T>(p: Pool<T>, limit: nat, e: Event) {
    match e
    case Acquire => !p.acquired && p.next < |p.stages| && p.semaphore < limit
    case Launch => p.acquired && p.next < |p.stages|
    case Write(i) => At(p, i, Computing) && i < |p.slots| == |p.writes|
    case Release(i) => At(p, i, Written) && p.semaphore > 0
    case Finish(i) => At(p, i, Released) && p.waiting > 0
    case Join => !p.joined && p.next == |p.stages| && !p.acquired && p.waiting == 0
  }

  /** `outcome(i)` is what running prepared step `i` comes to. */
  function Fire<T>(p: Pool<T>, limit: nat, outcome: nat -> T, e: Event): Pool<T>
    requires Enabled(p, limit, e)
  {
    match e
    case Acquire => p.(acquired := true, semaphore := p.semaphore + 1)
    case Launch => p.(acquired := false, next := p.next + 1, waiting := p.waiting + 1, stages := p.stages[p.next := Computing])
    case Write(i) =>
      p.(stages := p.stages[i := Written], slots := p.slots[i := Some(outcome(i))], writes := p.writes[i := p.writes[i] + 1])
    case Release(i) => p.(stages := p.stages[i := Released], semaphore := p.semaphore - 1)
    case Finish(i) => p.(stages := p.stages[i := Finished], waiting := p.waiting - 1)
    case Join => p.(joined := true)
  }

  // ---- counting ----

  /** The semaphore slots a goroutine holds. */
  function Held(s: Stage): nat {
    if s.Computing? || s.Written? then 1 else 0
  }

  /** What a goroutine still owes the wait group. */
  function Owed(s: Stage): nat {
    if s.Computing? || s.Written? || s.Released? then 1 else 0
  }

  function Ahead(s: Stage): nat {
    match s
    case Unlaunched => 5
    case Computing => 3
    case Written => 2
    case Released => 1
    case Finished => 0
  }

  function Total(stages: seq<Stage>, f: Stage -> nat): nat {
    if stages == [] then 0 else Total(stages[..|stages|-1], f) + f(stages[|stages|-1])
  }

  lemma {:induction false} TotalUpdate(stages: seq<Stage>, f: Stage -> nat, i: nat, s: Stage)
    requires i < |stages|
    ensures Total(stages[i := s], f) + f(stages[i]) == Total(stages, f) + f(s)
  {
    var n := |stages| - 1;
    if i == n {
      assert stages[i := s][..n] == stages[..n];
    } else {
      TotalUpdate(stages[..n], f, i, s);
      assert stages[i := s][..n] == stages[..n][i := s];
    }
  }

  lemma {:induction false} TotalOfSame(stages: seq<Stage>, f: Stage -> nat, s: Stage)
    requires forall i :: 0 <= i < |stages| ==> stages[i] == s
    ensures Total(stages, f) == |stages| * f(s)
  {
    if stages != [] {
      TotalOfSame(stages[..|stages|-1], f, s);
    }
  }

  lemma {:induction false} TotalAtLeast(stages: seq<Stage>, f: Stage -> nat, i: nat)
    requires i < |stages|
    ensures Total(stages, f) >= f(stages[i])
  {
    var n := |stages| - 1;
    if i < n {
      TotalAtLeast(stages[..n], f, i);
    }
  }

  function Holders<T>(p: Pool<T>): nat {
    Total(p.stages, Held)
  }

  function Workers<T>(p: Pool<T>): nat {
    Total(p.stages, Owed)
  }

  /** The events still to come, whatever the schedule. */
  function EventsLeft<T>(p: Pool<T>): int {
    Total(p.stages, Ahead) - (if p.acquired then 1 else 0) + if p.joined then 0 else 1
  }

  // ---- the invariant ----

  ghost predicate SlotOK<T>(p: Pool<T>, outcome: nat -> T, i: nat)
    requires i < |p.stages| == |p.slots| == |p.writes|
  {
    if p.stages[i].Unlaunched? || p.stages[i].Computing? then p.slots[i] == None && p.writes[i] == 0
    else p.slots[i] == Some(outcome(i)) && p.writes[i] == 1
  }

  ghost predicate PoolOK<T>(p: Pool<T>, n: nat, limit: nat, outcome: nat -> T) {
    && |p.stages| == |p.slots| == |p.writes| == n && p.next <= n
    && (forall i :: 0 <= i < n ==> (p.stages[i].Unlaunched? <==> i >= p.next) && SlotOK(p, outcome, i))
    && p.semaphore == Holders(p) + (if p.acquired then 1 else 0) && p.semaphore <= limit
    && p.waiting == Workers(p)
    && (p.acquired ==> p.next < n)
    && (p.joined ==> p.next == n && !p.acquired && p.waiting == 0)
  }

  lemma StartOK<T>(n: nat, limit: nat, outcome: nat -> T)
    ensures PoolOK(Start<T>(n), n, limit, outcome) && EventsLeft(Start<T>(n)) == 5 * n + 1
  {
    var stages := Start<T>(n).stages;
    TotalOfSame(stages, Held, Unlaunched);
    TotalOfSame(stages, Owed, Unlaunched);
    TotalOfSame(stages, Ahead, Unlaunched);
  }

  /** A goroutine moving on changes the three totals by its own share. */
  lemma TotalsAfter(stages: seq<Stage>, i: nat, s: Stage)
    requires i < |stages|
    ensures Total(stages[i := s], Held) + Held(stages[i])
            == Total(stages, Held) + Held(s)
    ensures Total(stages[i := s], Owed) + Owed(stages[i])
            == Total(stages, Owed) + Owed(s)
    ensures Total(stages[i := s], Ahead) + Ahead(stages[i]) == Total(stages, Ahead) + Ahead(s)
  {
    TotalUpdate(stages, Held, i, s);
    TotalUpdate(stages, Owed, i, s);
    TotalUpdate(stages, Ahead, i, s);
  }

  lemma LaunchKeeps<T>(p: Pool<T>, n: nat, limit: nat, outcome: nat -> T)
    requires PoolOK(p, n, limit, outcome) && Enabled(p, limit, Launch)
    ensures var q := Fire(p, limit, outcome, Launch); PoolOK(q, n, limit, outcome) && EventsLeft(q) == EventsLeft(p) - 1
  {
    var q := Fire(p, limit, outcome, Launch);
    TotalsAfter(p.stages, p.next, Computing);
    forall i | 0 <= i < n ensures (q.stages[i].Unlaunched? <==> i >= q.next) && SlotOK(q, outcome, i) {
      assert SlotOK(p, outcome, i);
    }
  }

  /** A goroutine that has its slot written, or moves on from there. */
  lemma WorkerKeeps<T>(p: Pool<T>, n: nat, limit: nat, outcome: nat -> T, e: Event)
    requires PoolOK(p, n, limit, outcome) && Enabled(p, limit, e) && (e.Write? || e.Release? || e.Finish?)
    ensures var q := Fire(p, limit, outcome, e); PoolOK(q, n, limit, outcome) && EventsLeft(q) == EventsLeft(p) - 1
  {
    var q := Fire(p, limit, outcome, e);
    var k := e.worker;
    TotalsAfter(p.stages, k, q.stages[k]);
    assert q.stages == p.stages[k := q.stages[k]];
    forall i | 0 <= i < n ensures (q.stages[i].Unlaunched? <==> i >= q.next) && SlotOK(q, outcome, i) {
      assert SlotOK(p, outcome, i);
    }
  }

  lemma LauncherKeeps<T>(p: Pool<T>, n: nat, limit: nat, outcome: nat -> T, e: Event)
    requires PoolOK(p, n, limit, outcome) && Enabled(p, limit, e) && (e.Acquire? || e.Join?)
    ensures var q := Fire(p, limit, outcome, e); PoolOK(q, n, limit, outcome) && EventsLeft(q) == EventsLeft(p) - 1
  {
    var q := Fire(p, limit, outcome, e);
    assert q.stages == p.stages && q.slots == p.slots && q.writes == p.writes && q.next == p.next;
    forall i | 0 <= i < n ensures SlotOK(q, outcome, i) {
      assert SlotOK(p, outcome, i);
    }
  }

  /** Every event keeps the books and leaves exactly one event less. */
  lemma FireKeeps<T>(p: Pool<T>, n: nat, limit: nat, outcome: nat -> T, e: Event)
    requires PoolOK(p, n, limit, outcome) && Enabled(p, limit, e)
    ensures var q := Fire(p, limit, outcome, e); PoolOK(q, n, limit, outcome) && EventsLeft(q) == EventsLeft(p) - 1
  {
    if e.Launch? {
      LaunchKeeps(p, n, limit, outcome);
    } else if e.Acquire? || e.Join? {
      LauncherKeeps(p, n, limit, outcome, e);
    } else {
      WorkerKeeps(p, n, limit, outcome, e);
    }
  }

  /** Until the launcher has joined, some event can always happen: no schedule gets stuck. */
  lemma NoDeadlock<T>(p: Pool<T>, n: nat, limit: nat, outcome: nat -> T) returns (e: Event)
    requires PoolOK(p, n, limit, outcome) && limit > 0 && !p.joined
    ensures Enabled(p, limit, e)
  {
    if i :| 0 <= i < n && p.stages[i].Computing? {
      e := Write(i);
    } else if i :| 0 <= i < n && p.stages[i].Written? {
      TotalAtLeast(p.stages, Held, i);
      e := Release(i);
    } else if i :| 0 <= i < n && p.stages[i].Released? {
      TotalAtLeast(p.stages, Owed, i);
      e := Finish(i);
    } else if p.acquired {
      e := Launch;
    } else {
      NothingRuns(p.stages, Held);
      NothingRuns(p.stages, Owed);
      e := if p.next < n then Acquire else Join;
    }
  }

  lemma {:induction false} NothingRuns(stages: seq<Stage>, f: Stage -> nat)
    requires forall i :: 0 <= i < |stages| ==> f(stages[i]) == 0
    ensures Total(stages, f) == 0
  {
    if stages != [] {
      NothingRuns(stages[..|stages|-1], f);
    }
  }

  // ---- schedules ----

  ghost predicate Schedule<T(!new)>(n: nat, limit: nat, outcome: nat -> T, es: seq<Event>) {
    es == [] || (Schedule(n, limit, outcome, es[..|es|-1]) && Enabled(Reached(n, limit, outcome, es[..|es|-1]), limit, es[|es|-1]))
  }

  ghost function Reached<T(!new)>(n: nat, limit: nat, outcome: nat -> T, es: seq<Event>): Pool<T> {
    if es == [] then Start(n)
    else
      var p := Reached(n, limit, outcome, es[..|es|-1]);
      if Enabled(p, limit, es[|es|-1]) then Fire(p, limit, outcome, es[|es|-1]) else p
  }

  lemma {:induction false} ScheduleKeeps<T(!new)>(n: nat, limit: nat, outcome: nat -> T, es: seq<Event>)
    requires Schedule(n, limit, outcome, es)
    ensures var p := Reached(n, limit, outcome, es); PoolOK(p, n, limit, outcome) && EventsLeft(p) + |es| == 5 * n + 1
  {
    if es == [] {
      StartOK(n, limit, outcome);
    } else {
      var front := es[..|es|-1];
      ScheduleKeeps(n, limit, outcome, front);
      FireKeeps(Reached(n, limit, outcome, front), n, limit, outcome, es[|es|-1]);
    }
  }

  /** Under every schedule at most `limit` goroutines are in flight, and no slot is written twice. */
  lemma ConcurrencyBounded<T(!new)>(n: nat, limit: nat, outcome: nat -> T, es: seq<Event>)
    requires Schedule(n, limit, outcome, es)
    ensures var p := Reached(n, limit, outcome, es);
            Holders(p) <= limit && |p.writes| == n && forall i :: 0 <= i < n ==> p.writes[i] <= 1
  {
    ScheduleKeeps(n, limit, outcome, es);
    var p := Reached(n, limit, outcome, es);
    forall i | 0 <= i < n ensures p.writes[i] <= 1 {
      assert SlotOK(p, outcome, i);
    }
  }

  lemma AllFinished<T>(p: Pool<T>, n: nat, limit: nat, outcome: nat -> T, i: nat)
    requires PoolOK(p, n, limit, outcome) && p.joined && i < n
    ensures p.stages[i].Finished?
  {
    TotalAtLeast(p.stages, Owed, i);
  }

  /** When the wait group lets the launcher go, every slot was written exactly once and holds its own step's
      outcome: the result is the map over the prepared steps, whatever the schedule was. */
  lemma ResultIsMap<T(!new)>(n: nat, limit: nat, outcome: nat -> T, es: seq<Event>)
    requires Schedule(n, limit, outcome, es) && Reached(n, limit, outcome, es).joined
    ensures var p := Reached(n, limit, outcome, es);
            && |p.slots| == |p.writes| == n
            && forall i :: 0 <= i < n ==> p.slots[i] == Some(outcome(i)) && p.writes[i] == 1
  {
    ScheduleKeeps(n, limit, outcome, es);
    var p := Reached(n, limit, outcome, es);
    forall i | 0 <= i < n ensures p.slots[i] == Some(outcome(i)) && p.writes[i] == 1 {
      AllFinished(p, n, limit, outcome, i);
      assert SlotOK(p, outcome, i);
    }
  }

  /** A schedule has joined exactly when it is `5n + 1` events long; a shorter one can always go on. */
  lemma EveryScheduleEnds<T(!new)>(n: nat, limit: nat, outcome: nat -> T, es: seq<Event>)
    requires Schedule(n, limit, outcome, es) && limit > 0
    ensures |es| <= 5 * n + 1
    ensures Reached(n, limit, outcome, es).joined <==> |es| == 5 * n + 1
    ensures |es| < 5 * n + 1 ==> exists e :: Enabled(Reached(n, limit, outcome, es), limit, e)
  {
    ScheduleKeeps(n, limit, outcome, es);
    var p := Reached(n, limit, outcome, es);
    if p.joined {
      forall i | 0 <= i < n ensures p.stages[i] == Finished {
        AllFinished(p, n, limit, outcome, i);
      }
      TotalOfSame(p.stages, Ahead, Finished);
    } else {
      var e := NoDeadlock(p, n, limit, outcome);
      FireKeeps(p, n, limit, outcome, e);
      LeftNonNegative(Fire(p, limit, outcome, e), n, limit, outcome);
    }
  }

  lemma LeftNonNegative<T>(p: Pool<T>, n: nat, limit: nat, outcome: nat -> T)
    requires PoolOK(p, n, limit, outcome)
    ensures EventsLeft(p) >= 0
  {
    if p.acquired {
      TotalAtLeast(p.stages, Ahead, p.next);
    }
  }
}

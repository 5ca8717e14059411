/** The in-memory session store: versioned records, and leases that workers claim, renew and release. */
module SessionStore {
  import opened PlanModel
  import opened SessionKernel
  import opened Aggregates

  /** A stored session. Lease 0 stands for no lease; `content` for all that neither leases nor claims look at. */
  datatype State = State(
    sessionID: string, phase: Phase, execution: ExecutionState, interruptedAt: int, inFlightStep: string, content: int,
    runtimeStartedAt: int, lastHeartbeatAt: int, createdAt: int, updatedAt: int, version: int,
    leaseID: nat, leaseClaimedAt: int, leaseExpiresAt: int)

  datatype StoreError = SessionNotFound | VersionConflict | LeaseNotHeld

  type Sessions = map<string, State>

  ghost predicate Keyed(sessions: Sessions) {
    forall id :: id in sessions ==> sessions[id].sessionID == id
  }

  // ---- leases and claims ----

  predicate LeaseActiveAt(st: State, now: int) {
    st.leaseID != 0 && st.leaseExpiresAt > now
  }

  predicate LeaseHeldAt(st: State, leaseID: nat, now: int) {
    leaseID != 0 && st.leaseID == leaseID && LeaseActiveAt(st, now)
  }

  predicate IsRecoverableState(st: State) {
    match st.execution
    case InFlight => true
    case Interrupted => true
    case Idle => st.phase.Recover? && (st.interruptedAt != 0 || st.inFlightStep != "")
    case _ => false
  }

  predicate Claimable(st: State, recoverable: bool, now: int) {
    && !LeaseActiveAt(st, now)
    && !st.execution.AwaitingApproval? && !st.execution.ExecutionBlocked?
    && if recoverable then IsRecoverableState(st) else st.execution.Idle? && !Terminal(st.phase)
  }

  function Claimed(st: State, leaseID: nat, claimedAt: int, expiresAt: int): State {
    st.(leaseID := leaseID, leaseClaimedAt := claimedAt, leaseExpiresAt := expiresAt,
        lastHeartbeatAt := claimedAt, version := st.version + 1, updatedAt := claimedAt)
  }

  function Renewed(st: State, now: int, expiresAt: int): State {
    st.(leaseExpiresAt := expiresAt, lastHeartbeatAt := now, version := st.version + 1, updatedAt := now)
  }

  function Released(st: State, now: int): State {
    st.(leaseID := 0, leaseClaimedAt := 0, leaseExpiresAt := 0, version := st.version + 1, updatedAt := now)
  }

  /** What an accepted update stores. */
  function Stored(current: State, next: State, clock: int): State {
    next.(createdAt := if next.createdAt == 0 then current.createdAt else next.createdAt,
          runtimeStartedAt := if next.runtimeStartedAt == 0 then current.runtimeStartedAt else next.runtimeStartedAt,
          updatedAt := clock)
  }

  /** Older sessions first, ties by id. */
  predicate Before(a: State, b: State) {
    if a.createdAt == b.createdAt then StringLess(a.sessionID, b.sessionID) else a.createdAt < b.createdAt
  }

  lemma BeforeStrict(a: State, b: State)
    requires Before(a, b)
    ensures !Before(b, a)
  {
    if a.createdAt == b.createdAt {
      StringLessStrict(a.sessionID, b.sessionID);
    }
  }

  lemma BeforeTotal(a: State, b: State)
    ensures Before(a, b) || Before(b, a) || a.sessionID == b.sessionID
  {
    StringLessTotal(a.sessionID, b.sessionID);
  }

  lemma BeforeTransitive(a: State, b: State, c: State)
    requires Before(a, b) && Before(b, c)
    ensures Before(a, c)
  {
    if a.createdAt == b.createdAt == c.createdAt {
      StringLessTransitive(a.sessionID, b.sessionID, c.sessionID);
    }
  }

  /** The older one, or of two of one time the one whose id comes first. */
  ghost predicate NoYounger(a: State, b: State) {
    a.createdAt <= b.createdAt && (a.createdAt == b.createdAt ==> Precedes(a.sessionID, b.sessionID))
  }

  lemma BeforeMeans(a: State, b: State)
    ensures Before(a, b) <==> NoYounger(a, b)
  {
    StringLessMeans(a.sessionID, b.sessionID);
  }

  /** Nobody holds a lease on it, and it is at rest and not over, or, for recovery, was left in the middle of a step. */
  ghost predicate Takes(st: State, recoverable: bool, now: int) {
    && (st.leaseID == 0 || st.leaseExpiresAt <= now)
    && if recoverable
       then st.execution.InFlight? || st.execution.Interrupted?
            || (st.execution.Idle? && st.phase.Recover? && !(st.interruptedAt == 0 && st.inFlightStep == ""))
       else st.execution.Idle? && !st.phase.Complete? && !st.phase.PhaseFailed? && !st.phase.PhaseAborted?
  }

  lemma ClaimableMeans(st: State, recoverable: bool, now: int)
    ensures Claimable(st, recoverable, now) <==> Takes(st, recoverable, now)
  {
  }

  /** Nothing a session is about has changed, and the record is one version on. */
  predicate SameWork(before: State, after: State) {
    && after.sessionID == before.sessionID && after.phase == before.phase && after.execution == before.execution
    && after.interruptedAt == before.interruptedAt && after.inFlightStep == before.inFlightStep
    && after.content == before.content && after.runtimeStartedAt == before.runtimeStartedAt
    && after.createdAt == before.createdAt && after.version == before.version + 1
  }

  /** A claimed session belongs to the claimer until the lease expires, and to nobody else. */
  lemma ClaimedMeans(st: State, leaseID: nat, claimedAt: int, expiresAt: int, other: nat, now: int)
    requires leaseID != 0
    ensures var c := Claimed(st, leaseID, claimedAt, expiresAt);
            && SameWork(st, c) && c.leaseClaimedAt == c.lastHeartbeatAt == c.updatedAt == claimedAt
            && (LeaseHeldAt(c, other, now) <==> other == leaseID && now < expiresAt)
            && (forall recoverable :: Claimable(c, recoverable, now) ==> expiresAt <= now)
  {
  }

  /** A renewal moves the end of the holder's lease and the heartbeat, and nothing else. */
  lemma RenewedMeans(st: State, expiresAt: int, read: int, other: nat, now: int)
    requires st.leaseID != 0
    ensures var r := Renewed(st, read, expiresAt);
            && SameWork(st, r) && r.leaseClaimedAt == st.leaseClaimedAt && r.lastHeartbeatAt == r.updatedAt == read
            && (LeaseHeldAt(r, other, now) <==> other == st.leaseID && now < expiresAt)
  {
  }

  /** A released session belongs to nobody, and can be claimed again if its state allows it. */
  lemma ReleasedMeans(st: State, read: int, other: nat, recoverable: bool, now: int)
    ensures var r := Released(st, read);
            && SameWork(st, r) && r.leaseClaimedAt == 0 && r.lastHeartbeatAt == st.lastHeartbeatAt && r.updatedAt == read
            && !LeaseHeldAt(r, other, now)
            && (Claimable(r, recoverable, now) <==> Takes(st.(leaseID := 0), recoverable, now))
  {
  }

  /** An update stores what it is given, but that it forgets neither the time of creation nor the start of the clock. */
  lemma StoredMeans(current: State, next: State, clock: int)
    ensures var s := Stored(current, next, clock);
            && s == next.(createdAt := s.createdAt, runtimeStartedAt := s.runtimeStartedAt, updatedAt := clock)
            && (next.createdAt != 0 ==> s.createdAt == next.createdAt) && (next.createdAt == 0 ==> s.createdAt == current.createdAt)
            && (next.runtimeStartedAt != 0 ==> s.runtimeStartedAt == next.runtimeStartedAt)
            && (next.runtimeStartedAt == 0 ==> s.runtimeStartedAt == current.runtimeStartedAt)
  {
  }

  // ---- ordering the sessions for a claim ----

  ghost predicate Ordered(sts: seq<State>) {
    forall i, j :: 0 <= i < j < |sts| ==> Before(sts[i], sts[j])
  }

  lemma OrderedMeans(sts: seq<State>)
    requires Ordered(sts)
    ensures forall i, j :: 0 <= i < j < |sts| ==> NoYounger(sts[i], sts[j])
  {
    forall i, j | 0 <= i < j < |sts| ensures NoYounger(sts[i], sts[j]) {
      BeforeMeans(sts[i], sts[j]);
    }
  }

  /** Puts a session in its place. */
  method InsertOrdered(sts: seq<State>, st: State) returns (r: seq<State>)
    requires Ordered(sts) && forall s :: s in sts ==> s.sessionID != st.sessionID
    ensures Ordered(r) && forall s :: s in r <==> s in sts || s == st
    ensures forall i, j :: 0 <= i < j < |r| ==> NoYounger(r[i], r[j])
  {
    var i := |sts|;
    while i > 0 && !Before(sts[i-1], st)
      invariant 0 <= i <= |sts|
      invariant forall j :: i <= j < |sts| ==> Before(st, sts[j])
    {
      i := i - 1;
      BeforeTotal(sts[i], st);
      assert sts[i] in sts;
    }
    r := sts[..i] + [st] + sts[i..];
    forall j | 0 <= j < i ensures Before(sts[j], st) {
      if j < i - 1 {
        BeforeTransitive(sts[j], sts[i-1], st);
      }
    }
    OrderedMeans(r);
  }

  method OrderSessions(sessions: Sessions) returns (ordered: seq<State>)
    requires Keyed(sessions)
    ensures Ordered(ordered) && forall s :: s in ordered <==> s.sessionID in sessions && sessions[s.sessionID] == s
  {
    ordered := [];
    var ids := sessions.Keys;
    while ids != {}
      invariant ids <= sessions.Keys && Ordered(ordered)
      invariant forall s :: s in ordered <==> s.sessionID in sessions && s.sessionID !in ids && sessions[s.sessionID] == s
      decreases |ids|
    {
      var id :| id in ids;
      ordered := InsertOrdered(ordered, sessions[id]);
      ids := ids - {id};
    }
  }

  // ---- the store ----

  /** The oldest claimable session, if there is one. */
  ghost predicate FirstClaimable(sessions: Sessions, recoverable: bool, now: int, id: string) {
    && id in sessions && Claimable(sessions[id], recoverable, now)
    && forall other :: other in sessions && other != id && Claimable(sessions[other], recoverable, now) ==>
                         Before(sessions[id], sessions[other])
  }

  ghost predicate NothingClaimable(sessions: Sessions, recoverable: bool, now: int) {
    forall id :: id in sessions ==> !Claimable(sessions[id], recoverable, now)
  }

  lemma OldestTaken(sessions: Sessions, recoverable: bool, now: int, id: string)
    requires FirstClaimable(sessions, recoverable, now, id)
    ensures Takes(sessions[id], recoverable, now)
    ensures forall other :: other in sessions && other != id && Takes(sessions[other], recoverable, now) ==>
                              NoYounger(sessions[id], sessions[other])
  {
    ClaimableMeans(sessions[id], recoverable, now);
    forall other | other in sessions && other != id && Takes(sessions[other], recoverable, now)
      ensures NoYounger(sessions[id], sessions[other])
    {
      ClaimableMeans(sessions[other], recoverable, now);
      BeforeMeans(sessions[id], sessions[other]);
    }
  }

  lemma NothingTaken(sessions: Sessions, recoverable: bool, now: int)
    requires NothingClaimable(sessions, recoverable, now)
    ensures forall id :: id in sessions ==> !Takes(sessions[id], recoverable, now)
  {
    forall id | id in sessions ensures !Takes(sessions[id], recoverable, now) {
      ClaimableMeans(sessions[id], recoverable, now);
    }
  }

  /** Which session is claimed does not depend on the order the map is walked in. */
  lemma FirstClaimableIsUnique(sessions: Sessions, recoverable: bool, now: int, a: string, b: string)
    requires FirstClaimable(sessions, recoverable, now, a) && FirstClaimable(sessions, recoverable, now, b)
    ensures a == b
  {
    if a != b {
      BeforeStrict(sessions[a], sessions[b]);
    }
  }

  class MemoryStore {
    var sessions: Sessions

    constructor ()
      ensures sessions == map[]
    {
      sessions := map[];
    }

    method Create(id: string, now: int) returns (st: State)
      requires Keyed(sessions) && id !in sessions
      modifies this
      ensures Keyed(sessions) && sessions == old(sessions)[id := st]
      ensures st == State(id, Received, Idle, 0, "", 0, 0, now, now, now, 1, 0, 0, 0)
    {
      st := State(id, Received, Idle, 0, "", 0, 0, now, now, now, 1, 0, 0, 0);
      sessions := sessions[id := st];
    }

    method Get(id: string) returns (r: Result<State, StoreError>)
      ensures r == if id in sessions then Ok(sessions[id]) else Err(SessionNotFound)
    {
      r := if id in sessions then Ok(sessions[id]) else Err(SessionNotFound);
    }

    /** Writes the record if it was made from the current version, and only then. */
    method Update(next: State, clock: int) returns (error: Option<StoreError>)
      requires Keyed(sessions)
      modifies this
      ensures Keyed(sessions)
      ensures error == Some(SessionNotFound) <==> next.sessionID !in old(sessions)
      ensures error == Some(VersionConflict) <==>
                next.sessionID in old(sessions) && next.version != old(sessions)[next.sessionID].version + 1
      ensures error.None? || error == Some(SessionNotFound) || error == Some(VersionConflict)
      ensures error.Some? ==> sessions == old(sessions)
      ensures error.None? ==> sessions == old(sessions)[next.sessionID := Stored(old(sessions)[next.sessionID], next, clock)]
    {
      if next.sessionID !in sessions {
        return Some(SessionNotFound);
      }
      var current := sessions[next.sessionID];
      if next.version != current.version + 1 {
        return Some(VersionConflict);
      }
      var st := next;
      if st.createdAt == 0 {
        st := st.(createdAt := current.createdAt);
      }
      if st.runtimeStartedAt == 0 {
        st := st.(runtimeStartedAt := current.runtimeStartedAt);
      }
      st := st.(updatedAt := clock);
      sessions := sessions[next.sessionID := st];
      return None;
    }

    /** Leases the oldest claimable session. */
    method ClaimNext(recoverable: bool, leaseID: nat, claimedAt: int, expiresAt: int) returns (claimed: Option<State>)
      requires Keyed(sessions)
      modifies this
      ensures Keyed(sessions)
      ensures claimed.None? <==> NothingClaimable(old(sessions), recoverable, claimedAt)
      ensures claimed.None? ==> sessions == old(sessions)
      ensures claimed.None? <==> forall id :: id in old(sessions) ==> !Takes(old(sessions)[id], recoverable, claimedAt)
      ensures claimed.Some? ==>
                var id := claimed.value.sessionID;
                && id in old(sessions) && Takes(old(sessions)[id], recoverable, claimedAt)
                && forall other :: other in old(sessions) && other != id && Takes(old(sessions)[other], recoverable, claimedAt) ==>
                                     NoYounger(old(sessions)[id], old(sessions)[other])
      ensures claimed.Some? ==>
                var id := claimed.value.sessionID;
                && FirstClaimable(old(sessions), recoverable, claimedAt, id)
                && claimed.value == Claimed(old(sessions)[id], leaseID, claimedAt, expiresAt)
                && sessions == old(sessions)[id := claimed.value]
    {
      var ordered := OrderSessions(sessions);
      for i := 0 to |ordered|
        invariant sessions == old(sessions)
        invariant forall j :: 0 <= j < i ==> !Claimable(ordered[j], recoverable, claimedAt)
      {
        assert ordered[i] in ordered;
        var st := sessions[ordered[i].sessionID];
        if Claimable(st, recoverable, claimedAt) {
          forall other | other in sessions && other != st.sessionID && Claimable(sessions[other], recoverable, claimedAt)
            ensures Before(st, sessions[other])
          {
            assert sessions[other] in ordered;
          }
          OldestTaken(sessions, recoverable, claimedAt, st.sessionID);
          st := Claimed(st, leaseID, claimedAt, expiresAt);
          sessions := sessions[st.sessionID := st];
          return Some(st);
        }
      }
      forall id | id in sessions ensures !Claimable(sessions[id], recoverable, claimedAt) {
        assert sessions[id] in ordered;
      }
      NothingTaken(sessions, recoverable, claimedAt);
      return None;
    }

    method RenewLease(id: string, leaseID: nat, now: int, expiresAt: int) returns (r: Result<State, StoreError>)
      requires Keyed(sessions)
      modifies this
      ensures Keyed(sessions)
      ensures r.Ok? <==> id in old(sessions) && LeaseHeldAt(old(sessions)[id], leaseID, now)
      ensures r.Err? ==> sessions == old(sessions) && r.error == if id in old(sessions) then LeaseNotHeld else SessionNotFound
      ensures r.Ok? ==> r.value == Renewed(old(sessions)[id], now, expiresAt) && sessions == old(sessions)[id := r.value]
    {
      if id !in sessions {
        return Err(SessionNotFound);
      }
      var st := sessions[id];
      if !LeaseHeldAt(st, leaseID, now) {
        return Err(LeaseNotHeld);
      }
      st := st.(leaseExpiresAt := expiresAt, lastHeartbeatAt := now, version := st.version + 1, updatedAt := now);
      sessions := sessions[id := st];
      return Ok(st);
    }

    method ReleaseLease(id: string, leaseID: nat, now: int) returns (r: Result<State, StoreError>)
      requires Keyed(sessions)
      modifies this
      ensures Keyed(sessions)
      ensures r.Ok? <==> id in old(sessions) && LeaseHeldAt(old(sessions)[id], leaseID, now)
      ensures r.Err? ==> sessions == old(sessions) && r.error == if id in old(sessions) then LeaseNotHeld else SessionNotFound
      ensures r.Ok? ==> r.value == Released(old(sessions)[id], now) && sessions == old(sessions)[id := r.value]
    {
      if id !in sessions {
        return Err(SessionNotFound);
      }
      var st := sessions[id];
      if !LeaseHeldAt(st, leaseID, now) {
        return Err(LeaseNotHeld);
      }
      st := st.(leaseID := 0, leaseClaimedAt := 0, leaseExpiresAt := 0, version := st.version + 1, updatedAt := now);
      sessions := sessions[id := st];
      return Ok(st);
    }
  }
}

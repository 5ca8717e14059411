/** Writing a session back while other workers write it too: read, merge, compare-and-set, at most four times. */
module SessionUpdate {
  import opened PlanModel
  import opened SessionStore

  const MAX_SESSION_UPDATE_ATTEMPTS := 4

  /** `desired` brought up to the record it will replace: the lease and its renewals are the record's. */
  function MergeSessionUpdate(current: State, desired: State, leaseID: nat): State {
    var base := desired.(
      version := current.version + 1,
      createdAt := current.createdAt,
      runtimeStartedAt := if desired.runtimeStartedAt == 0 then current.runtimeStartedAt else desired.runtimeStartedAt);
    var leased :=
      if current.leaseID != 0 && (leaseID == 0 || current.leaseID == leaseID) then
        base.(leaseID := current.leaseID, leaseClaimedAt := current.leaseClaimedAt, leaseExpiresAt := current.leaseExpiresAt,
              lastHeartbeatAt := if current.lastHeartbeatAt > base.lastHeartbeatAt then current.lastHeartbeatAt else base.lastHeartbeatAt)
      else base;
    if leased.lastHeartbeatAt == 0 then leased.(lastHeartbeatAt := current.lastHeartbeatAt) else leased
  }

  predicate RequireSessionLease(st: State, leaseID: nat, now: int) {
    if leaseID == 0 then !LeaseActiveAt(st, now) else LeaseHeldAt(st, leaseID, now)
  }

  /** Whoever names a lease must hold it; who names none may go on while nobody holds one. */
  lemma RequiredMeans(st: State, leaseID: nat, now: int)
    ensures RequireSessionLease(st, leaseID, now) <==>
              if leaseID != 0 then st.leaseID == leaseID && now < st.leaseExpiresAt else st.leaseID == 0 || st.leaseExpiresAt <= now
  {
  }

  /** Under its own lease a writer changes no lease field, starts no second runtime clock, and never turns the
      heartbeat back. */
  lemma MergeKeepsLease(current: State, desired: State, leaseID: nat, now: int)
    requires leaseID != 0 && RequireSessionLease(current, leaseID, now)
    ensures var m := MergeSessionUpdate(current, desired, leaseID);
            && m.leaseID == current.leaseID && m.leaseClaimedAt == current.leaseClaimedAt && m.leaseExpiresAt == current.leaseExpiresAt
            && m.version == current.version + 1 && m.createdAt == current.createdAt
            && (current.lastHeartbeatAt >= 0 ==> m.lastHeartbeatAt >= current.lastHeartbeatAt)
            && LeaseHeldAt(m, leaseID, now)
  {
  }

  /** What the session is about is the writer's; that it exists and since when its clock runs is the record's. Whose lease
      it is is the record's too, unless the writer names another; and of two heartbeats under one lease the later counts. */
  lemma MergeMeans(current: State, desired: State, leaseID: nat)
    ensures var m := MergeSessionUpdate(current, desired, leaseID);
            && m.sessionID == desired.sessionID && m.phase == desired.phase && m.execution == desired.execution
            && m.interruptedAt == desired.interruptedAt && m.inFlightStep == desired.inFlightStep && m.content == desired.content
            && m.updatedAt == desired.updatedAt
            && m.version == current.version + 1 && m.createdAt == current.createdAt
            && m.runtimeStartedAt == (if desired.runtimeStartedAt != 0 then desired.runtimeStartedAt else current.runtimeStartedAt)
            && (if current.leaseID != 0 && leaseID in {0, current.leaseID} then
                  && m.leaseID == current.leaseID && m.leaseClaimedAt == current.leaseClaimedAt
                  && m.leaseExpiresAt == current.leaseExpiresAt
                else
                  && m.leaseID == desired.leaseID && m.leaseClaimedAt == desired.leaseClaimedAt
                  && m.leaseExpiresAt == desired.leaseExpiresAt)
            && m.lastHeartbeatAt in {current.lastHeartbeatAt, desired.lastHeartbeatAt}
            && (current.leaseID != 0 && leaseID in {0, current.leaseID} && (current.lastHeartbeatAt > 0 || desired.lastHeartbeatAt > 0) ==>
                  m.lastHeartbeatAt >= current.lastHeartbeatAt && m.lastHeartbeatAt >= desired.lastHeartbeatAt)
            && (!(current.leaseID != 0 && leaseID in {0, current.leaseID}) && desired.lastHeartbeatAt != 0 ==>
                  m.lastHeartbeatAt == desired.lastHeartbeatAt)
            && (desired.lastHeartbeatAt == 0 && current.lastHeartbeatAt >= 0 ==> m.lastHeartbeatAt == current.lastHeartbeatAt)
  {
  }

  // ---- what others may do meanwhile ----

  datatype Foreign =
    | ForeignUpdate(next: State, clock: int)
    | ForeignClaim(recoverable: bool, leaseID: nat, claimedAt: int, expiresAt: int)
    | ForeignRenew(id: string, leaseID: nat, now: int, expiresAt: int)
    | ForeignRelease(id: string, leaseID: nat, now: int)

  /** Records are only ever replaced by newer versions. */
  ghost predicate Evolves(before: Sessions, after: Sessions) {
    && before.Keys == after.Keys
    && forall id :: id in before ==> after[id] == before[id] || after[id].version > before[id].version
  }

  lemma EvolvesTransitive(a: Sessions, b: Sessions, c: Sessions)
    requires Evolves(a, b) && Evolves(b, c)
    ensures Evolves(a, c)
  {
  }

  method Perform(store: MemoryStore, ops: seq<Foreign>)
    requires Keyed(store.sessions)
    modifies store
    ensures Keyed(store.sessions) && Evolves(old(store.sessions), store.sessions)
  {
    for i := 0 to |ops|
      invariant Keyed(store.sessions) && Evolves(old(store.sessions), store.sessions)
    {
      ghost var before := store.sessions;
      match ops[i] {
        case ForeignUpdate(next, clock) =>
          var _ := store.Update(next, clock);
        case ForeignClaim(recoverable, leaseID, claimedAt, expiresAt) =>
          var _ := store.ClaimNext(recoverable, leaseID, claimedAt, expiresAt);
        case ForeignRenew(id, leaseID, now, expiresAt) =>
          var _ := store.RenewLease(id, leaseID, now, expiresAt);
        case ForeignRelease(id, leaseID, now) =>
          var _ := store.ReleaseLease(id, leaseID, now);
      }
      EvolvesTransitive(old(store.sessions), before, store.sessions);
    }
  }

  // ---- the update ----

  /** What a success did to the record it found in the store, which it need not have read last. */
  ghost predicate Replaced(seen: Sessions, after: Sessions, desired: State, leaseID: nat, now: int, clock: int) {
    var id := desired.sessionID;
    && id in seen && LeaseHeldAt(seen[id], leaseID, now)
    && after == seen[id := Stored(seen[id], MergeSessionUpdate(seen[id], desired, leaseID), clock)]
  }

  /** Success replaces exactly the record of that moment: still leased to the writer, one version on, its lease,
      claim time and expiry untouched. */
  lemma ReplacedMeans(seen: Sessions, after: Sessions, desired: State, leaseID: nat, now: int, clock: int)
    requires Keyed(seen) && leaseID != 0 && Replaced(seen, after, desired, leaseID, now, clock)
    ensures var id := desired.sessionID;
            && after[id].version == seen[id].version + 1
            && seen[id].leaseID == leaseID && after[id].leaseID == leaseID
            && after[id].leaseClaimedAt == seen[id].leaseClaimedAt && after[id].leaseExpiresAt == seen[id].leaseExpiresAt
            && after[id].content == desired.content && after[id].phase == desired.phase && after[id].execution == desired.execution
            && after[id].inFlightStep == desired.inFlightStep && after[id].interruptedAt == desired.interruptedAt
            && after[id].runtimeStartedAt
               == (if desired.runtimeStartedAt != 0 then desired.runtimeStartedAt else seen[id].runtimeStartedAt)
            && after[id].createdAt == seen[id].createdAt && after[id].updatedAt == clock
            && (seen[id].lastHeartbeatAt > 0 ==>
                  after[id].lastHeartbeatAt >= seen[id].lastHeartbeatAt && after[id].lastHeartbeatAt >= desired.lastHeartbeatAt
                  && after[id].lastHeartbeatAt in {seen[id].lastHeartbeatAt, desired.lastHeartbeatAt})
            && forall other :: other in seen && other != id ==> after[other] == seen[other]
  {
  }

  /** `others(k)` is what other workers do between the read and the write of round `k`, `seen` the store right
      before the last write of this call, or at the read that ended it. */
  method UpdateSessionWithRetry(store: MemoryStore, desired: State, leaseID: nat, now: int, clock: int, others: nat -> seq<Foreign>)
    returns (r: Result<State, StoreError>, ghost seen: Sessions)
    requires Keyed(store.sessions) && leaseID != 0
    modifies store
    ensures Keyed(store.sessions) && Evolves(old(store.sessions), seen)
    ensures r.Ok? ==> Replaced(seen, store.sessions, desired, leaseID, now, clock)
                      && r.value == MergeSessionUpdate(seen[desired.sessionID], desired, leaseID)
    ensures r.Err? ==> store.sessions == seen
    ensures r == Err(SessionNotFound) <==> desired.sessionID !in old(store.sessions)
    ensures r == Err(LeaseNotHeld) ==> desired.sessionID in seen && !LeaseHeldAt(seen[desired.sessionID], leaseID, now)
    ensures r == Err(VersionConflict) ==>
              desired.sessionID in old(store.sessions) && desired.sessionID in seen
              && seen[desired.sessionID].version >= old(store.sessions)[desired.sessionID].version + MAX_SESSION_UPDATE_ATTEMPTS
  {
    var id := desired.sessionID;
    seen := store.sessions;
    for attempt := 0 to MAX_SESSION_UPDATE_ATTEMPTS
      invariant Keyed(store.sessions) && Evolves(old(store.sessions), store.sessions) && seen == store.sessions
      invariant attempt > 0 ==> id in seen
      invariant id in seen ==> seen[id].version >= old(store.sessions)[id].version + attempt
    {
      var read := store.Get(id);
      if read.Err? {
        return Err(read.error), seen;
      }
      var current := read.value;
      if !RequireSessionLease(current, leaseID, now) {
        return Err(LeaseNotHeld), seen;
      }
      var candidate := MergeSessionUpdate(current, desired, leaseID);
      ghost var atRead := store.sessions;
      Perform(store, others(attempt));
      EvolvesTransitive(old(store.sessions), atRead, store.sessions);
      seen := store.sessions;
      var error := store.Update(candidate, clock);
      if error.None? {
        assert seen[id] == current;
        return Ok(candidate), seen;
      }
      // The record is known to exist, so the write can only have lost to a newer version.
      assert error == Some(VersionConflict);
    }
    return Err(VersionConflict), seen;
  }
}

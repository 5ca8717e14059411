/** Many workers on one session store: every step is one atomic store call, clock readings may be stale. */
module LeaseProtocol {
  import opened PlanModel
  import opened SessionKernel
  import opened SessionStore
  import opened SessionUpdate

  /** One claim of a session: from the moment it was granted until it runs out, or was released or aborted. */
  datatype Tenure = Tenure(sessionID: string, leaseID: nat, start: int, until: int, ended: Option<int>)

  /** `snapshots` lists every snapshot any worker has taken, `tenures` every claim ever granted, in order;
      `used` holds the lease ids that have been handed out. */
  datatype Cluster = Cluster(sessions: Sessions, clock: int, snapshots: seq<State>, tenures: seq<Tenure>, used: set<nat>)

  datatype Move =
    | Tick(to: int)
    | Create(id: string)
    | Read(id: string)
    | Claim(id: string, recoverable: bool, leaseID: nat, reading: int, expiresAt: int)
    | Renew(id: string, leaseID: nat, reading: int, expiresAt: int)
    | Release(id: string, leaseID: nat, reading: int)
    | PlainWrite(snapshot: nat, edited: State)
    | LeaseWrite(snapshot: nat, desired: State, leaseID: nat, reading: int)
    | AbortWrite(snapshot: nat)

  predicate SameLease(s: State, t: State) {
    s.leaseID == t.leaseID && s.leaseClaimedAt == t.leaseClaimedAt && s.leaseExpiresAt == t.leaseExpiresAt
  }

  /** What a worker may ask for: fresh lease ids, readings of a clock that has got there, edits that leave the
      lease of the snapshot alone. */
  ghost predicate Allowed(c: Cluster, m: Move) {
    match m
    case Tick(to) => c.clock <= to
    case Create(id) => id !in c.sessions
    case Read(id) => true
    case Claim(id, recoverable, leaseID, reading, expiresAt) =>
      leaseID != 0 && leaseID !in c.used && reading <= c.clock && FirstClaimable(c.sessions, recoverable, reading, id)
    case Renew(_, _, reading, _) => reading <= c.clock
    case Release(_, _, reading) => reading <= c.clock
    case PlainWrite(k, edited) => k < |c.snapshots| && edited.sessionID == c.snapshots[k].sessionID
                                  && edited.version == c.snapshots[k].version && SameLease(edited, c.snapshots[k])
    case LeaseWrite(k, desired, leaseID, reading) =>
      k < |c.snapshots| && desired.sessionID == c.snapshots[k].sessionID && leaseID != 0 && RequireSessionLease(c.snapshots[k], leaseID, reading)
    case AbortWrite(k) => k < |c.snapshots|
  }

  // ---- what the moves do ----

  function Cas(c: Cluster, next: State): Cluster {
    if next.sessionID in c.sessions && next.version == c.sessions[next.sessionID].version + 1
    then c.(sessions := c.sessions[next.sessionID := Stored(c.sessions[next.sessionID], next, c.clock)])
    else c
  }

  function MapTenures(ts: seq<Tenure>, leaseID: nat, f: Tenure -> Tenure): (r: seq<Tenure>)
    ensures |r| == |ts| && forall i :: 0 <= i < |ts| ==> r[i] == if ts[i].leaseID == leaseID then f(ts[i]) else ts[i]
  {
    seq(|ts|, i requires 0 <= i < |ts| => if ts[i].leaseID == leaseID then f(ts[i]) else ts[i])
  }

  function Extended(ts: seq<Tenure>, leaseID: nat, until: int): seq<Tenure> {
    MapTenures(ts, leaseID, (t: Tenure) => t.(until := until))
  }

  function Ended(ts: seq<Tenure>, leaseID: nat, at: int): seq<Tenure> {
    MapTenures(ts, leaseID, (t: Tenure) => t.(ended := Some(at)))
  }

  /** The write of an abort: the lease goes, whoever holds it. */
  function AbortedState(s: State): State {
    s.(phase := PhaseAborted, execution := Idle, inFlightStep := "", version := s.version + 1,
       leaseID := 0, leaseClaimedAt := 0, leaseExpiresAt := 0)
  }

  function Moved(c: Cluster, m: Move): Cluster {
    match m
    case Tick(to) => c.(clock := to)
    case Create(id) => c.(sessions := c.sessions[id := State(id, Received, Idle, 0, "", 0, 0, c.clock, c.clock, c.clock, 1, 0, 0, 0)])
    case Read(id) => if id in c.sessions then c.(snapshots := c.snapshots + [c.sessions[id]]) else c
    case Claim(id, _, leaseID, reading, expiresAt) =>
      if id !in c.sessions then c
      else c.(sessions := c.sessions[id := Claimed(c.sessions[id], leaseID, reading, expiresAt)],
              tenures := c.tenures + [Tenure(id, leaseID, c.clock, expiresAt, None)],
              used := c.used + {leaseID})
    case Renew(id, leaseID, reading, expiresAt) =>
      if id !in c.sessions || !LeaseHeldAt(c.sessions[id], leaseID, reading) then c
      else c.(sessions := c.sessions[id := Renewed(c.sessions[id], reading, expiresAt)],
              tenures := Extended(c.tenures, leaseID, expiresAt))
    case Release(id, leaseID, reading) =>
      if id !in c.sessions || !LeaseHeldAt(c.sessions[id], leaseID, reading) then c
      else c.(sessions := c.sessions[id := Released(c.sessions[id], reading)], tenures := Ended(c.tenures, leaseID, c.clock))
    case PlainWrite(_, edited) => Cas(c, edited.(version := edited.version + 1))
    case LeaseWrite(k, desired, leaseID, _) => if k < |c.snapshots| then Cas(c, MergeSessionUpdate(c.snapshots[k], desired, leaseID)) else c
    case AbortWrite(k) =>
      if k >= |c.snapshots| then c
      else
        var next := Cas(c, AbortedState(c.snapshots[k]));
        if next == c then c else next.(tenures := Ended(c.tenures, c.snapshots[k].leaseID, c.clock))
  }

  // ---- what the moves do to the records ----

  /** Of the sessions, at most this one has changed; what was read, and the clock, has not. */
  ghost predicate OnlySession(c: Cluster, d: Cluster, id: string) {
    && d.clock == c.clock && d.snapshots == c.snapshots && d.sessions.Keys == c.sessions.Keys && id in c.sessions
    && forall other :: other in c.sessions && other != id ==> d.sessions[other] == c.sessions[other]
  }

  /** By that reading of the clock the lease is that of the session. */
  predicate HoldsAt(c: Cluster, id: string, leaseID: nat, reading: int) {
    id in c.sessions && leaseID != 0 && c.sessions[id].leaseID == leaseID && reading < c.sessions[id].leaseExpiresAt
  }

  /** Only the tenures of this lease may differ, and those only in what `f` changes. */
  ghost predicate OnlyTenures(c: Cluster, d: Cluster, leaseID: nat, f: Tenure -> Tenure) {
    && |d.tenures| == |c.tenures| && d.used == c.used
    && forall i :: 0 <= i < |c.tenures| ==> d.tenures[i] == if c.tenures[i].leaseID == leaseID then f(c.tenures[i]) else c.tenures[i]
  }

  /** A claim takes a session nobody holds, for the time asked for, and begins a tenure. */
  lemma ClaimLeaves(c: Cluster, m: Move)
    requires Allowed(c, m) && m.Claim?
    ensures var d, id := Moved(c, m), m.id;
            && OnlySession(c, d, id) && Takes(c.sessions[id], m.recoverable, m.reading) && SameWork(c.sessions[id], d.sessions[id])
            && d.sessions[id].leaseID == m.leaseID && d.sessions[id].leaseExpiresAt == m.expiresAt
            && d.sessions[id].leaseClaimedAt == m.reading
            && d.tenures == c.tenures + [Tenure(id, m.leaseID, c.clock, m.expiresAt, None)] && d.used == c.used + {m.leaseID}
  {
    ClaimableMeans(c.sessions[m.id], m.recoverable, m.reading);
  }

  /** A renewal moves the end of a lease that is held by its reading; any other does nothing. */
  lemma RenewalLeaves(c: Cluster, id: string, leaseID: nat, reading: int, expiresAt: int)
    ensures var d := Moved(c, Renew(id, leaseID, reading, expiresAt));
            if HoldsAt(c, id, leaseID, reading) then
              && OnlySession(c, d, id) && SameWork(c.sessions[id], d.sessions[id])
              && d.sessions[id].leaseID == leaseID && d.sessions[id].leaseExpiresAt == expiresAt
              && d.sessions[id].leaseClaimedAt == c.sessions[id].leaseClaimedAt
              && OnlyTenures(c, d, leaseID, (t: Tenure) => t.(until := expiresAt))
            else d == c
  {
  }

  /** A release gives up a lease that is held by its reading; any other does nothing. */
  lemma ReleaseLeaves(c: Cluster, id: string, leaseID: nat, reading: int)
    ensures var d := Moved(c, Release(id, leaseID, reading));
            if HoldsAt(c, id, leaseID, reading) then
              && OnlySession(c, d, id) && SameWork(c.sessions[id], d.sessions[id]) && d.sessions[id].leaseID == 0
              && OnlyTenures(c, d, leaseID, (t: Tenure) => t.(ended := Some(c.clock)))
            else d == c
  {
  }

  /** What was read is still what is stored, as far as the version tells. */
  predicate UpToDate(c: Cluster, k: nat) {
    && k < |c.snapshots| && c.snapshots[k].sessionID in c.sessions
    && c.sessions[c.snapshots[k].sessionID].version == c.snapshots[k].version
  }

  /** A write made from a snapshot takes effect exactly while the snapshot is up to date, and then changes one record. */
  lemma WriteLeaves(c: Cluster, m: Move)
    requires Allowed(c, m) && (m.PlainWrite? || m.LeaseWrite? || m.AbortWrite?)
    ensures var d, id := Moved(c, m), c.snapshots[m.snapshot].sessionID;
            if UpToDate(c, m.snapshot) then
              && OnlySession(c, d, id) && d.used == c.used && d.sessions[id].version == c.sessions[id].version + 1
              && (m.PlainWrite? ==> d.sessions[id].phase == m.edited.phase && d.sessions[id].execution == m.edited.execution
                                    && d.sessions[id].content == m.edited.content && d.tenures == c.tenures)
              && (m.LeaseWrite? ==> d.sessions[id].phase == m.desired.phase && d.sessions[id].execution == m.desired.execution
                                    && d.sessions[id].content == m.desired.content && d.tenures == c.tenures)
              && (m.AbortWrite? ==> d.sessions[id].phase.PhaseAborted? && d.sessions[id].execution.Idle?
                                    && d.sessions[id].inFlightStep == "" && d.sessions[id].leaseID == 0
                                    && d.sessions[id].content == c.snapshots[m.snapshot].content
                                    && OnlyTenures(c, d, c.snapshots[m.snapshot].leaseID, (t: Tenure) => t.(ended := Some(c.clock))))
            else d == c
  {
    if m.LeaseWrite? {
      MergeMeans(c.snapshots[m.snapshot], m.desired, m.leaseID);
    }
  }

  // ---- the invariant ----

  function EndOf(t: Tenure): int {
    if t.ended.Some? && t.ended.value < t.until then t.ended.value else t.until
  }

  /** The tenure its session's record stands for. */
  predicate Current(c: Cluster, t: Tenure) {
    && t.sessionID in c.sessions && c.sessions[t.sessionID].leaseID == t.leaseID
    && c.sessions[t.sessionID].leaseExpiresAt == t.until && t.ended.None?
  }

  ghost predicate Over(c: Cluster, t: Tenure) {
    EndOf(t) <= c.clock && forall id :: id in c.sessions ==> c.sessions[id].leaseID != t.leaseID
  }

  ghost predicate TenureOK(c: Cluster, t: Tenure) {
    t.leaseID != 0 && t.leaseID in c.used && t.start <= c.clock && (Current(c, t) || Over(c, t))
  }

  /** A snapshot is out of date, or it is the record. */
  predicate SnapshotOK(c: Cluster, s: State) {
    && s.sessionID in c.sessions
    && (c.sessions[s.sessionID] == s || c.sessions[s.sessionID].version > s.version)
  }

  predicate TenureOf(c: Cluster, i: nat, id: string) {
    && i < |c.tenures| && id in c.sessions
    && c.tenures[i].sessionID == id && c.tenures[i].leaseID == c.sessions[id].leaseID
  }

  ghost predicate HasTenure(c: Cluster, id: string) {
    id in c.sessions && c.sessions[id].leaseID != 0 ==> exists i: nat :: TenureOf(c, i, id)
  }

  predicate InOrder(c: Cluster, i: nat, j: nat)
    requires i < |c.tenures| && j < |c.tenures|
  {
    && c.tenures[i].leaseID != c.tenures[j].leaseID
    && (c.tenures[i].sessionID == c.tenures[j].sessionID ==>
          EndOf(c.tenures[i]) <= c.tenures[j].start && !Current(c, c.tenures[i]))
  }

  ghost predicate LeasesOK(c: Cluster) {
    && (forall id :: HasTenure(c, id))
    && (forall i :: 0 <= i < |c.tenures| ==> TenureOK(c, c.tenures[i]))
    && (forall i, j :: 0 <= i < j < |c.tenures| ==> InOrder(c, i, j))
  }

  ghost predicate SnapshotsOK(c: Cluster) {
    forall k :: 0 <= k < |c.snapshots| ==> SnapshotOK(c, c.snapshots[k])
  }

  ghost predicate ClusterOK(c: Cluster) {
    Keyed(c.sessions) && SnapshotsOK(c) && LeasesOK(c)
  }

  // ---- snapshots ----

  /** Every write replaces a record by its next version. */
  ghost predicate Bumps(c: Cluster, d: Cluster) {
    && c.sessions.Keys <= d.sessions.Keys
    && forall id :: id in c.sessions ==> d.sessions[id] == c.sessions[id] || d.sessions[id].version == c.sessions[id].version + 1
  }

  lemma StepBumps(c: Cluster, m: Move)
    requires Keyed(c.sessions) && Allowed(c, m)
    ensures Bumps(c, Moved(c, m)) && Keyed(Moved(c, m).sessions)
  {
  }

  lemma StepKeepsSnapshots(c: Cluster, m: Move)
    requires ClusterOK(c) && Allowed(c, m)
    ensures SnapshotsOK(Moved(c, m))
  {
    StepBumps(c, m);
    var d := Moved(c, m);
    forall k | 0 <= k < |d.snapshots| ensures SnapshotOK(d, d.snapshots[k]) {
      if k < |c.snapshots| {
        assert SnapshotOK(c, c.snapshots[k]) && d.snapshots[k] == c.snapshots[k];
      }
    }
  }

  /** A compare-and-set that succeeds replaces the very record its snapshot was taken of. */
  lemma CasReplacesSnapshot(c: Cluster, k: nat, next: State)
    requires ClusterOK(c) && k < |c.snapshots| && next.sessionID == c.snapshots[k].sessionID && next.version == c.snapshots[k].version + 1
    ensures Cas(c, next) != c ==> c.sessions[next.sessionID] == c.snapshots[k]
  {
    assert SnapshotOK(c, c.snapshots[k]);
  }

  // ---- who may change a lease ----

  lemma WritesKeepLease(c: Cluster, m: Move, id: string)
    requires ClusterOK(c) && Allowed(c, m) && (m.PlainWrite? || m.LeaseWrite?) && id in c.sessions
    ensures SameLease(Moved(c, m).sessions[id], c.sessions[id])
  {
    match m
    case PlainWrite(k, edited) => CasReplacesSnapshot(c, k, edited.(version := edited.version + 1));
    case LeaseWrite(k, desired, leaseID, reading) => CasReplacesSnapshot(c, k, MergeSessionUpdate(c.snapshots[k], desired, leaseID));
  }

  /** The lease of a session changes only by a claim of a lease that is dead, by its live holder renewing or
      releasing it, or by an abort. Every other write leaves all three lease fields as they are. */
  lemma LeaseChangesOnlyBy(c: Cluster, m: Move, id: string)
    requires ClusterOK(c) && Allowed(c, m) && id in c.sessions
    requires !SameLease(Moved(c, m).sessions[id], c.sessions[id])
    ensures
      || (m.Claim? && m.id == id && !LeaseActiveAt(c.sessions[id], c.clock))
      || ((m.Renew? || m.Release?) && m.id == id && LeaseHeldAt(c.sessions[id], m.leaseID, m.reading))
      || m.AbortWrite?
  {
    if m.PlainWrite? || m.LeaseWrite? {
      WritesKeepLease(c, m, id);
    }
  }

  // ---- every move keeps the invariant ----

  /** A lease id is the lease of one session only. */
  lemma OneSessionPerLease(c: Cluster, id: string, other: string)
    requires LeasesOK(c) && id in c.sessions && other in c.sessions
    requires c.sessions[id].leaseID == c.sessions[other].leaseID != 0
    ensures id == other
  {
    assert HasTenure(c, id) && HasTenure(c, other);
    var i: nat :| TenureOf(c, i, id);
    var j: nat :| TenureOf(c, j, other);
    assert i < j ==> InOrder(c, i, j);
    assert j < i ==> InOrder(c, j, i);
  }

  /** What a move on the lease of one session must see to. */
  ghost predicate TouchesLeaseOf(c: Cluster, d: Cluster, id: string) {
    && c.clock == d.clock && c.used <= d.used && |c.tenures| <= |d.tenures|
    && c.sessions.Keys == d.sessions.Keys && id in c.sessions
    && (forall other :: other in c.sessions && other != id ==> d.sessions[other] == c.sessions[other])
    && (forall i :: 0 <= i < |c.tenures| ==>
          && d.tenures[i].sessionID == c.tenures[i].sessionID
          && d.tenures[i].leaseID == c.tenures[i].leaseID && d.tenures[i].start == c.tenures[i].start)
    && (forall i :: 0 <= i < |c.tenures| && c.tenures[i].leaseID != c.sessions[id].leaseID ==> d.tenures[i] == c.tenures[i])
  }

  /** The tenures of other leases are as good as before. */
  lemma OtherTenuresKeep(c: Cluster, d: Cluster, id: string, i: nat)
    requires LeasesOK(c) && TouchesLeaseOf(c, d, id) && i < |c.tenures|
    requires c.tenures[i].leaseID != c.sessions[id].leaseID
    requires d.sessions[id].leaseID == 0 || d.sessions[id].leaseID == c.sessions[id].leaseID || d.sessions[id].leaseID !in c.used
    ensures TenureOK(d, d.tenures[i]) && (Current(d, d.tenures[i]) ==> Current(c, c.tenures[i]))
  {
    assert TenureOK(c, c.tenures[i]);
  }

  /** The lease of `id` is given up for good, or for a fresh one: its tenure, now `d.tenures[i]`, is over. */
  lemma OldTenureOver(c: Cluster, d: Cluster, id: string, i: nat)
    requires LeasesOK(c) && TouchesLeaseOf(c, d, id) && i < |c.tenures|
    requires c.tenures[i].leaseID == c.sessions[id].leaseID
    requires EndOf(d.tenures[i]) <= d.clock
    requires d.sessions[id].leaseID == 0 || d.sessions[id].leaseID !in c.used
    ensures TenureOK(d, d.tenures[i]) && !Current(d, d.tenures[i])
  {
    var t := d.tenures[i];
    assert TenureOK(c, c.tenures[i]);
    forall other | other in d.sessions ensures d.sessions[other].leaseID != t.leaseID {
      if other != id && c.sessions[other].leaseID == t.leaseID {
        OneSessionPerLease(c, id, other);
      }
    }
  }

  lemma OthersHaveTenure(c: Cluster, d: Cluster, id: string, other: string)
    requires LeasesOK(c) && TouchesLeaseOf(c, d, id) && other != id
    ensures HasTenure(d, other)
  {
    assert HasTenure(c, other);
    if other in d.sessions && d.sessions[other].leaseID != 0 {
      var i: nat :| TenureOf(c, i, other);
      assert TenureOf(d, i, other);
    }
  }

  lemma EndOfOnlyShrinks(c: Cluster, d: Cluster, id: string, i: nat, j: nat)
    requires LeasesOK(c) && TouchesLeaseOf(c, d, id) && i < j < |c.tenures|
    requires EndOf(d.tenures[i]) <= EndOf(c.tenures[i]) && (Current(d, d.tenures[i]) ==> Current(c, c.tenures[i]))
    ensures InOrder(d, i, j)
  {
    assert InOrder(c, i, j);
  }

  /** Claiming: the old tenure, if any, has run out, and a new one begins. */
  lemma ClaimKeeps(c: Cluster, m: Move)
    requires ClusterOK(c) && Allowed(c, m) && m.Claim?
    ensures LeasesOK(Moved(c, m))
  {
    var d, n, id := Moved(c, m), |c.tenures|, m.id;
    var latest := d.tenures[n];
    assert latest == Tenure(id, m.leaseID, c.clock, m.expiresAt, None);
    forall i | 0 <= i < n ensures TenureOK(d, d.tenures[i]) && !(d.tenures[i].sessionID == id && Current(d, d.tenures[i]))
                                  && (d.tenures[i].sessionID == id ==> EndOf(d.tenures[i]) <= c.clock)
                                  && (Current(d, d.tenures[i]) ==> Current(c, c.tenures[i])) {
      assert TenureOK(c, c.tenures[i]);
      if c.tenures[i].leaseID == c.sessions[id].leaseID {
        OneSessionPerLease(c, id, c.tenures[i].sessionID);
        OldTenureOver(c, d, id, i);
      } else {
        OtherTenuresKeep(c, d, id, i);
      }
    }
    forall i, j | 0 <= i < j < |d.tenures| ensures InOrder(d, i, j) {
      if j < n {
        EndOfOnlyShrinks(c, d, id, i, j);
      } else {
        assert TenureOK(c, c.tenures[i]);
      }
    }
    forall other ensures HasTenure(d, other) {
      if other == id {
        assert TenureOf(d, n, id);
      } else {
        OthersHaveTenure(c, d, id, other);
      }
    }
  }

  /** Releasing or aborting: the tenure ends now. */
  lemma EndKeeps(c: Cluster, d: Cluster, id: string)
    requires LeasesOK(c) && TouchesLeaseOf(c, d, id) && |d.tenures| == |c.tenures| && d.sessions[id].leaseID == 0
    requires d.tenures == Ended(c.tenures, c.sessions[id].leaseID, c.clock)
    ensures LeasesOK(d)
  {
    forall i | 0 <= i < |d.tenures|
      ensures TenureOK(d, d.tenures[i]) && (Current(d, d.tenures[i]) ==> Current(c, c.tenures[i]))
      ensures EndOf(d.tenures[i]) <= EndOf(c.tenures[i])
    {
      assert TenureOK(c, c.tenures[i]);
      if c.tenures[i].leaseID == c.sessions[id].leaseID {
        OldTenureOver(c, d, id, i);
      } else {
        OtherTenuresKeep(c, d, id, i);
      }
    }
    forall i, j | 0 <= i < j < |d.tenures| ensures InOrder(d, i, j) {
      EndOfOnlyShrinks(c, d, id, i, j);
    }
    forall other ensures HasTenure(d, other) {
      if other != id {
        OthersHaveTenure(c, d, id, other);
      }
    }
  }

  /** Renewing: only the latest tenure of the session can be extended. */
  lemma RenewKeeps(c: Cluster, m: Move)
    requires ClusterOK(c) && Allowed(c, m) && m.Renew? && m.id in c.sessions && LeaseHeldAt(c.sessions[m.id], m.leaseID, m.reading)
    ensures LeasesOK(Moved(c, m))
  {
    var d, id := Moved(c, m), m.id;
    assert HasTenure(c, id);
    var k: nat :| TenureOf(c, k, id);
    assert TenureOK(c, c.tenures[k]);
    forall i | 0 <= i < |d.tenures|
      ensures TenureOK(d, d.tenures[i])
      ensures i != k ==> d.tenures[i] == c.tenures[i] && (Current(d, d.tenures[i]) ==> Current(c, c.tenures[i]))
    {
      assert i < k ==> InOrder(c, i, k);
      assert k < i ==> InOrder(c, k, i);
      if i != k {
        OtherTenuresKeep(c, d, id, i);
      }
    }
    forall i, j | 0 <= i < j < |d.tenures| ensures InOrder(d, i, j) {
      assert InOrder(c, i, j);
    }
    forall other ensures HasTenure(d, other) {
      if other == id {
        assert TenureOf(d, k, id);
      } else {
        OthersHaveTenure(c, d, id, other);
      }
    }
  }

  /** Moves that leave all leases as they are. */
  lemma SameLeasesKeep(c: Cluster, d: Cluster)
    requires LeasesOK(c) && d.tenures == c.tenures && d.used == c.used && c.clock <= d.clock
    requires c.sessions.Keys <= d.sessions.Keys
    requires forall id :: id in c.sessions ==> SameLease(d.sessions[id], c.sessions[id])
    requires forall id :: id in d.sessions && id !in c.sessions ==> d.sessions[id].leaseID == 0
    ensures LeasesOK(d)
  {
    forall i | 0 <= i < |d.tenures| ensures TenureOK(d, d.tenures[i]) && (Current(d, d.tenures[i]) ==> Current(c, c.tenures[i])) {
      assert TenureOK(c, c.tenures[i]);
    }
    forall i, j | 0 <= i < j < |d.tenures| ensures InOrder(d, i, j) {
      assert InOrder(c, i, j);
    }
    forall id ensures HasTenure(d, id) {
      assert HasTenure(c, id);
      if id in c.sessions && c.sessions[id].leaseID != 0 {
        var i: nat :| TenureOf(c, i, id);
        assert TenureOf(d, i, id);
      }
    }
  }

  lemma AbortWriteKeeps(c: Cluster, m: Move)
    requires ClusterOK(c) && Allowed(c, m) && m.AbortWrite?
    ensures LeasesOK(Moved(c, m))
  {
    var s := c.snapshots[m.snapshot];
    var next := Cas(c, AbortedState(s));
    CasReplacesSnapshot(c, m.snapshot, AbortedState(s));
    if next != c {
      EndKeeps(c, Moved(c, m), s.sessionID);
    }
  }

  lemma MoveKeepsLeases(c: Cluster, m: Move)
    requires ClusterOK(c) && Allowed(c, m)
    ensures LeasesOK(Moved(c, m))
  {
    match m
    case Claim(_, _, _, _, _) => ClaimKeeps(c, m);
    case Renew(id, leaseID, reading, _) =>
      if id in c.sessions && LeaseHeldAt(c.sessions[id], leaseID, reading) {
        RenewKeeps(c, m);
      }
    case Release(id, leaseID, reading) =>
      if id in c.sessions && LeaseHeldAt(c.sessions[id], leaseID, reading) {
        EndKeeps(c, Moved(c, m), id);
      }
    case AbortWrite(_) => AbortWriteKeeps(c, m);
    case PlainWrite(_, _) =>
      forall id | id in c.sessions ensures SameLease(Moved(c, m).sessions[id], c.sessions[id]) {
        WritesKeepLease(c, m, id);
      }
      SameLeasesKeep(c, Moved(c, m));
    case LeaseWrite(_, _, _, _) =>
      forall id | id in c.sessions ensures SameLease(Moved(c, m).sessions[id], c.sessions[id]) {
        WritesKeepLease(c, m, id);
      }
      SameLeasesKeep(c, Moved(c, m));
    case _ => SameLeasesKeep(c, Moved(c, m));
  }

  lemma MoveKeeps(c: Cluster, m: Move)
    requires ClusterOK(c) && Allowed(c, m)
    ensures ClusterOK(Moved(c, m)) && c.clock <= Moved(c, m).clock
  {
    StepBumps(c, m);
    StepKeepsSnapshots(c, m);
    MoveKeepsLeases(c, m);
  }

  // ---- runs ----

  ghost predicate AllowedRun(c: Cluster, ms: seq<Move>) {
    ms == [] || (AllowedRun(c, ms[..|ms|-1]) && Allowed(AfterMoves(c, ms[..|ms|-1]), ms[|ms|-1]))
  }

  ghost function AfterMoves(c: Cluster, ms: seq<Move>): Cluster {
    if ms == [] then c else Moved(AfterMoves(c, ms[..|ms|-1]), ms[|ms|-1])
  }

  const EMPTY := Cluster(map[], 0, [], [], {})

  lemma {:induction false} RunKeeps(c: Cluster, ms: seq<Move>)
    requires ClusterOK(c) && AllowedRun(c, ms)
    ensures ClusterOK(AfterMoves(c, ms)) && c.clock <= AfterMoves(c, ms).clock
  {
    if ms != [] {
      RunKeeps(c, ms[..|ms|-1]);
      MoveKeeps(AfterMoves(c, ms[..|ms|-1]), ms[|ms|-1]);
    }
  }

  predicate InForce(t: Tenure, at: int) {
    t.start <= at < EndOf(t)
  }

  /** Lease exclusivity: in every run, at no time are two claims of one session in force, however stale the
      clock readings behind claims and renewals were. */
  lemma ClaimsNeverOverlap(ms: seq<Move>, i: nat, j: nat, at: int)
    requires AllowedRun(EMPTY, ms)
    requires var ts := AfterMoves(EMPTY, ms).tenures;
             i < |ts| && j < |ts| && i != j && ts[i].sessionID == ts[j].sessionID
    ensures var ts := AfterMoves(EMPTY, ms).tenures; !(InForce(ts[i], at) && InForce(ts[j], at))
  {
    RunKeeps(EMPTY, ms);
    var c := AfterMoves(EMPTY, ms);
    assert i < j ==> InOrder(c, i, j);
    assert j < i ==> InOrder(c, j, i);
  }

  // ---- dead leases ----

  predicate Live(c: Cluster, id: string, leaseID: nat) {
    id in c.sessions && LeaseHeldAt(c.sessions[id], leaseID, c.clock)
  }

  /** A handed-out lease that is dead comes back to life in exactly one way: a renewal by its holder whose clock
      was read before the lease ran out, though it is stored after. */
  lemma RevivedExactlyBy(c: Cluster, m: Move, id: string, leaseID: nat)
    requires ClusterOK(c) && Allowed(c, m) && leaseID in c.used && !Live(c, id, leaseID)
    ensures Live(Moved(c, m), id, leaseID) <==>
              && m.Renew? && m.id == id && m.leaseID == leaseID && leaseID != 0
              && id in c.sessions && c.sessions[id].leaseID == leaseID
              && m.reading < c.sessions[id].leaseExpiresAt <= c.clock < m.expiresAt
  {
    if m.PlainWrite? || m.LeaseWrite? {
      if id in c.sessions {
        WritesKeepLease(c, m, id);
      }
    } else if m.AbortWrite? {
      CasReplacesSnapshot(c, m.snapshot, AbortedState(c.snapshots[m.snapshot]));
    }
  }

  /** Renewals stored at the very moment their clock was read. */
  ghost predicate Prompt(c: Cluster, ms: seq<Move>) {
    ms == [] || (Prompt(c, ms[..|ms|-1]) && (ms[|ms|-1].Renew? ==> ms[|ms|-1].reading == AfterMoves(c, ms[..|ms|-1]).clock))
  }

  /** With prompt renewals a lease that is dead stays dead for the rest of the run. */
  lemma {:induction false} DeadStaysDead(c: Cluster, ms: seq<Move>, id: string, leaseID: nat)
    requires ClusterOK(c) && AllowedRun(c, ms) && Prompt(c, ms) && leaseID in c.used && !Live(c, id, leaseID)
    ensures !Live(AfterMoves(c, ms), id, leaseID) && leaseID in AfterMoves(c, ms).used
  {
    if ms != [] {
      var front := ms[..|ms|-1];
      DeadStaysDead(c, front, id, leaseID);
      RunKeeps(c, front);
      RevivedExactlyBy(AfterMoves(c, front), ms[|ms|-1], id, leaseID);
    }
  }

  /** Without that it does not: a claim until 10, a renewal read at 9 and stored at 20, until 30. */
  lemma StaleRenewalRevives() returns (ms: seq<Move>, late: Move)
    ensures AllowedRun(EMPTY, ms) && Allowed(AfterMoves(EMPTY, ms), late)
    ensures !Live(AfterMoves(EMPTY, ms), "s", 1) && Live(Moved(AfterMoves(EMPTY, ms), late), "s", 1)
  {
    ms := [Create("s"), Claim("s", false, 1, 0, 10), Tick(20)];
    late := Renew("s", 1, 9, 30);
    var c1 := Moved(EMPTY, ms[0]);
    var c2 := Moved(c1, ms[1]);
    assert ms[..2][..1][..0] == [] && ms[..2][..1] == [ms[0]] && ms[..2] == [ms[0], ms[1]];
    assert AfterMoves(EMPTY, ms[..2][..1]) == c1;
    assert FirstClaimable(c1.sessions, false, 0, "s");
    assert AfterMoves(EMPTY, ms[..2]) == c2;
    assert AfterMoves(EMPTY, ms[..2][..1][..0]) == EMPTY && AllowedRun(EMPTY, ms[..2][..1][..0]);
    assert AllowedRun(EMPTY, ms[..2][..1]) && AllowedRun(EMPTY, ms[..2]);
    assert AfterMoves(EMPTY, ms) == Moved(c2, Tick(20));
  }
}

/** Answering an approval without a transaction: five stores written one after the other, and undone by hand when a
    write fails. */
module ApprovalSaga {
  import opened PlanModel
  import opened SessionKernel
  import opened KernelOperations
  import opened BatchWrites
  import opened DriverBudget

  /** A metadata map. Attempts handed out by the store share theirs with the stored record. */
  class Meta {
    var entries: map<string, string>

    constructor (entries: map<string, string>)
      ensures this.entries == entries
    {
      this.entries := entries;
    }
  }

  datatype AttemptStatus = AttemptBlocked | AttemptFailed | AttemptCompleted

  datatype Attempt = Attempt(approval: Option<nat>, status: AttemptStatus, step: Step, finishedAt: int, metadata: Meta?)

  /** An attempt with its metadata read out; a missing map reads as an empty one. */
  datatype AttemptView = AttemptView(approval: Option<nat>, status: AttemptStatus, step: Step, finishedAt: int, entries: map<string, string>)

  datatype TaskStatus = TaskReceived | TaskRunning | TaskCompleted | TaskFailed | TaskAborted

  datatype Versioned<T> = Versioned(value: T, version: int)

  datatype Write = ToApprovals | ToAttempts | ToPlans | ToTasks | ToSessions

  datatype ResponseFault = Declined(fault: Fault) | WriteFailed(write: Write)

  /** Everything the five stores hold about one session, as read: versions and plan statuses left out. */
  datatype Snapshot = Snapshot(
    approvals: seq<Approval>, attempts: seq<AttemptView>, plans: seq<seq<Step>>, task: Option<TaskStatus>, session: Session)

  const REPLY_KEY := "approval_reply"

  // ---- what is to become of the attempts ----

  /** The last attempt blocked on this approval. */
  function LatestBlocked(views: seq<AttemptView>, id: nat): (r: Option<nat>)
    ensures r.Some? ==> r.value < |views| && views[r.value].approval == Some(id) && views[r.value].status.AttemptBlocked?
    ensures r.Some? ==> forall i :: r.value < i < |views| ==> !(views[i].approval == Some(id) && views[i].status.AttemptBlocked?)
    ensures r.None? ==> forall i :: 0 <= i < |views| ==> !(views[i].approval == Some(id) && views[i].status.AttemptBlocked?)
  {
    if views == [] then None
    else if views[|views|-1].approval == Some(id) && views[|views|-1].status.AttemptBlocked? then Some(|views| - 1)
    else LatestBlocked(views[..|views|-1], id)
  }

  function FinalizedView(v: AttemptView, step: Step, now: int): AttemptView {
    v.(status := AttemptFailed, step := step, finishedAt := if v.finishedAt == 0 then now else v.finishedAt,
       entries := v.entries[REPLY_KEY := "reject"])
  }

  /** The attempts once the one that waited for this approval is finalised. */
  function FinalizedViews(views: seq<AttemptView>, id: nat, step: Step, now: int): (r: seq<AttemptView>)
    ensures |r| == |views|
  {
    match LatestBlocked(views, id)
    case None => views
    case Some(i) => views[i := FinalizedView(views[i], step, now)]
  }

  /** The last attempt that waits for this approval. */
  predicate LastWaiting(views: seq<AttemptView>, id: nat, i: nat) {
    && i < |views| && views[i].approval == Some(id) && views[i].status == AttemptBlocked
    && forall j :: i < j < |views| && views[j].approval == Some(id) ==> views[j].status != AttemptBlocked
  }

  /** It has failed, with the step it was answered for and the reply in its metadata; its end, if it had one, stands. All
      others are as they were. */
  predicate AttemptsAnswered(before: seq<AttemptView>, after: seq<AttemptView>, id: nat, step: Step, now: int) {
    && |after| == |before|
    && forall i :: 0 <= i < |before| ==>
         if LastWaiting(before, id, i) then
           && after[i].status == AttemptFailed && after[i].step == step && after[i].approval == before[i].approval
           && after[i].finishedAt == (if before[i].finishedAt != 0 then before[i].finishedAt else now)
           && after[i].entries == before[i].entries["approval_reply" := "reject"]
         else after[i] == before[i]
  }

  lemma FinalizedMeans(views: seq<AttemptView>, id: nat, step: Step, now: int)
    ensures AttemptsAnswered(views, FinalizedViews(views, id, step, now), id, step, now)
  {
    match LatestBlocked(views, id)
    case None =>
    case Some(k) =>
      forall i | 0 <= i < |views| ensures LastWaiting(views, id, i) <==> i == k { }
  }

  function RestoredViews(views: seq<AttemptView>, found: Option<nat>, original: AttemptView): seq<AttemptView> {
    if found.Some? && found.value < |views| then views[found.value := original] else views
  }

  lemma FinalizedThenRestored(views: seq<AttemptView>, id: nat, step: Step, now: int, original: AttemptView)
    requires LatestBlocked(views, id).Some? ==> original == views[LatestBlocked(views, id).value]
    ensures RestoredViews(FinalizedViews(views, id, step, now), LatestBlocked(views, id), original) == views
  {
  }

  function RejectedSession(s: Session, stepID: string): Session {
    WithCurrentStep(s, stepID).(phase := PhaseFailed, pendingApproval := None, execution := Idle, inFlightStep := "")
  }

  /** The stored attempts after the mark was left in a map the store shares; an attempt without a map shares none. */
  function Marked(views: seq<AttemptView>, i: nat, shared: bool): seq<AttemptView>
    requires i < |views|
  {
    if shared then views[i := views[i].(entries := views[i].entries[REPLY_KEY := "reject"])] else views
  }

  /** The mark shows exactly when the map is shared and did not carry that reply before. */
  lemma MarkShows(views: seq<AttemptView>, i: nat, shared: bool)
    requires i < |views|
    ensures Marked(views, i, shared) == views <==>
              (!shared || (REPLY_KEY in views[i].entries && views[i].entries[REPLY_KEY] == "reject"))
  {
    if shared && Marked(views, i, shared) == views {
      assert Marked(views, i, shared)[i].entries[REPLY_KEY] == "reject";
    }
    if REPLY_KEY in views[i].entries && views[i].entries[REPLY_KEY] == "reject" {
      assert views[i].entries[REPLY_KEY := "reject"] == views[i].entries;
    }
  }

  /** Taking a step's write back stores the former step again; a step without an id is not taken back. */
  ghost function Restored(plans: seq<Plan>, before: Step): seq<Plan> {
    if before.stepID == "" then plans else WriteStep(plans, before, DEFAULT_BUDGETS)
  }

  /** The plan the step is kept in does not know it, or holds what it is left with: the former step, or, without an
      id, the later one. */
  predicate Undoable(plans: seq<Plan>, before: Step, after: Step) {
    var k := PlanIndex(plans, before.planID);
    k < |plans| ==>
      match FindStep(plans[k].steps, before.stepID)
      case None => true
      case Some(i) => plans[k].steps[i] == AnnotateStep(if before.stepID == "" then after else before, plans[k].planID)
  }

  /** Storing a step and then taking it back leaves every plan with the steps it had, exactly when what is left is
      what the plan held. */
  lemma PlanUndone(plans: seq<Plan>, before: Step, after: Step)
    requires after.stepID == before.stepID && after.planID == before.planID
    ensures StepsOf(Restored(WriteStep(plans, after, DEFAULT_BUDGETS), before)) == StepsOf(plans) <==> Undoable(plans, before, after)
  {
    var k := WriteStepIs(plans, after, DEFAULT_BUDGETS);
    var same := WriteStepIs(plans, before, DEFAULT_BUDGETS);
    if k < |plans| {
      match FindStep(plans[k].steps, after.stepID)
      case None =>
      case Some(i) => OverwriteUndone(plans, k, i, before, after);
    }
  }

  lemma OverwriteUndone(plans: seq<Plan>, k: nat, i: nat, before: Step, after: Step)
    requires k < |plans| && k == PlanIndex(plans, before.planID) && FindStep(plans[k].steps, before.stepID) == Some(i)
    requires after.stepID == before.stepID && after.planID == before.planID
    ensures StepsOf(Restored(WriteStep(plans, after, DEFAULT_BUDGETS), before)) == StepsOf(plans) <==>
              plans[k].steps[i] == AnnotateStep(if before.stepID == "" then after else before, plans[k].planID)
  {
    var first := WriteStepIs(plans, after, DEFAULT_BUDGETS);
    var once := WriteStep(plans, after, DEFAULT_BUDGETS);
    if before.stepID == "" {
      OneStepApart(plans, once, k, i, AnnotateStep(after, plans[k].planID));
    } else {
      SameIDsFound(plans[k].steps, plans[k].steps[i := AnnotateStep(after, plans[k].planID)], before.stepID);
      var second := WriteStepIs(once, before, DEFAULT_BUDGETS);
      OneStepApart(plans, WriteStep(once, before, DEFAULT_BUDGETS), k, i, AnnotateStep(before, plans[k].planID));
    }
  }

  lemma OneStepApart(plans: seq<Plan>, undone: seq<Plan>, k: nat, i: nat, left: Step)
    requires k < |plans| == |undone| && i < |plans[k].steps| && undone[k].steps == plans[k].steps[i := left]
    requires forall j :: 0 <= j < |plans| && j != k ==> undone[j].steps == plans[j].steps
    ensures StepsOf(undone) == StepsOf(plans) <==> plans[k].steps[i] == left
  {
    if plans[k].steps[i] == left {
      assert plans[k].steps[i := left] == plans[k].steps;
    } else {
      assert StepsOf(undone)[k][i] != StepsOf(plans)[k][i];
    }
  }

  /** The plans' steps once a failing write made the saga take the step's write back. */
  ghost function PlansAfterUndo(plans: seq<Plan>, original: Step, failed: Step, write: Write): seq<seq<Step>> {
    if write.ToPlans? then StepsOf(plans) else StepsOf(Restored(WriteStep(plans, failed, DEFAULT_BUDGETS), original))
  }

  function StepsOf(plans: seq<Plan>): (r: seq<seq<Step>>)
    ensures |r| == |plans| && forall i :: 0 <= i < |r| ==> r[i] == plans[i].steps
  {
    seq(|plans|, i requires 0 <= i < |plans| => plans[i].steps)
  }

  ghost function MapsOf(attempts: seq<Attempt>): set<object> {
    set i | 0 <= i < |attempts| && attempts[i].metadata != null :: attempts[i].metadata
  }

  function ViewOf(a: Attempt): AttemptView
    reads a.metadata
  {
    AttemptView(a.approval, a.status, a.step, a.finishedAt, if a.metadata == null then map[] else a.metadata.entries)
  }

  ghost function ViewsOf(attempts: seq<Attempt>): (r: seq<AttemptView>)
    reads MapsOf(attempts)
    ensures |r| == |attempts| && forall i :: 0 <= i < |r| ==> r[i] == ViewOf(attempts[i])
  {
    seq(|attempts|, i requires 0 <= i < |attempts| reads MapsOf(attempts) => ViewOf(attempts[i]))
  }

  predicate ReachedEarly(failing: Option<Write>, waiting: Option<nat>) {
    failing == Some(ToApprovals) || (failing == Some(ToAttempts) && waiting.Some?)
  }

  predicate ReachedLate(failing: Option<Write>, task: Option<TaskStatus>) {
    failing == Some(ToPlans) || (failing == Some(ToTasks) && task.Some?) || failing == Some(ToSessions)
  }

  class ResponseService {
    var approvals: seq<Versioned<Approval>>
    var attempts: seq<Attempt>
    var plans: seq<Plan>
    var task: Option<TaskStatus>
    var session: Versioned<Session>

    ghost function Maps(): set<object>
      reads `attempts
    {
      MapsOf(attempts)
    }

    /** No two attempts share one map. */
    ghost predicate Valid()
      reads `attempts
    {
      forall i, j :: 0 <= i < j < |attempts| && attempts[i].metadata != null ==> attempts[i].metadata != attempts[j].metadata
    }

    ghost function View(i: nat): AttemptView
      requires i < |attempts|
      reads `attempts, Maps()
    {
      ViewOf(attempts[i])
    }

    ghost function Views(): (r: seq<AttemptView>)
      reads `attempts, Maps()
      ensures |r| == |attempts| && forall i :: 0 <= i < |r| ==> r[i] == View(i)
    {
      ViewsOf(attempts)
    }

    function Records(): (r: seq<Approval>)
      reads `approvals
      ensures |r| == |approvals| && forall i :: 0 <= i < |r| ==> r[i] == approvals[i].value
    {
      var recs := approvals;
      seq(|recs|, i requires 0 <= i < |recs| => recs[i].value)
    }

    function PlanSteps(): (r: seq<seq<Step>>)
      reads `plans
    {
      StepsOf(plans)
    }

    ghost function State(): Snapshot
      reads this, Maps()
    {
      Snapshot(Records(), Views(), PlanSteps(), task, session.value)
    }

    ghost predicate Holding(s: Snapshot)
      reads this, Maps()
    {
      Records() == s.approvals && Views() == s.attempts && PlanSteps() == s.plans && task == s.task && session.value == s.session
    }

    // ---- the stores ----

    method UpdateApproval(id: nat, next: Versioned<Approval>) returns (ok: bool)
      modifies `approvals
      ensures ok <==> id < |old(approvals)| && next.version == old(approvals)[id].version + 1
      ensures approvals == if ok then old(approvals)[id := next] else old(approvals)
    {
      ok := id < |approvals| && next.version == approvals[id].version + 1;
      if ok {
        approvals := approvals[id := next];
      }
    }

    method UpdateSession(next: Versioned<Session>) returns (ok: bool)
      modifies `session
      ensures ok <==> next.version == old(session).version + 1
      ensures session == if ok then next else old(session)
    {
      ok := next.version == session.version + 1;
      if ok {
        session := next;
      }
    }

    method UpdatePlanStep(step: Step)
      modifies `plans
      ensures plans == WriteStep(old(plans), step, DEFAULT_BUDGETS)
    {
      var k := PlanIndex(plans, step.planID);
      if k == |plans| {
        return;
      }
      var s := AnnotateStep(step, plans[k].planID);
      if FindStep(plans[k].steps, s.stepID).Some? {
        var steps := ReplaceStep(plans[k].steps, s);
        var outcome := PlanOutcome.PlanExecutionOutcomeForSpec(steps, DEFAULT_BUDGETS);
        plans := plans[k := plans[k].(steps := steps, status := PlanOutcome.PlanStatusFor(outcome.verdict))];
      }
    }

    method RestorePlanStep(before: Step)
      modifies `plans
      ensures plans == Restored(old(plans), before)
    {
      if before.stepID != "" {
        UpdatePlanStep(before);
      }
    }

    // ---- the attempt that waits for the answer ----

    method FindLatestBlockedAttempt(id: nat) returns (found: Option<nat>)
      requires Valid()
      ensures found == LatestBlocked(Views(), id)
    {
      var i := |attempts|;
      assert Views()[..i] == Views();
      while i > 0
        invariant 0 <= i <= |attempts|
        invariant LatestBlocked(Views(), id) == LatestBlocked(Views()[..i], id)
      {
        i := i - 1;
        assert Views()[..i+1][..i] == Views()[..i];
        assert Views()[..i+1][i] == View(i);
        if attempts[i].approval == Some(id) && attempts[i].status.AttemptBlocked? {
          return Some(i);
        }
      }
      return None;
    }

    /** Fills in the outcome. The reply is marked in the attempt's own map, which is the stored record's map too. */
    method MarkReply(i: nat, step: Step, now: int) returns (attempt: Attempt)
      requires Valid() && i < |attempts|
      modifies Maps()
      ensures Views() == Marked(old(Views()), i, attempts[i].metadata != null)
      ensures attempt.metadata != null && (attempt.metadata == attempts[i].metadata || fresh(attempt.metadata))
      ensures attempt.metadata.entries == old(View(i)).entries[REPLY_KEY := "reject"]
      ensures attempt == attempts[i].(status := AttemptFailed, step := step, metadata := attempt.metadata,
                                      finishedAt := if attempts[i].finishedAt == 0 then now else attempts[i].finishedAt)
    {
      ghost var before := Views();
      attempt := attempts[i].(status := AttemptFailed, step := step);
      if attempt.metadata == null {
        var created := new Meta(map[]);
        attempt := attempt.(metadata := created);
      }
      attempt.metadata.entries := attempt.metadata.entries[REPLY_KEY := "reject"];
      if attempt.finishedAt == 0 {
        attempt := attempt.(finishedAt := now);
      }
      assert forall j :: 0 <= j < |attempts| && j != i ==> View(j) == before[j];
    }

    method StoreAttempt(i: nat, attempt: Attempt)
      requires Valid() && i < |attempts| && attempt.metadata != null
      requires attempt.metadata == attempts[i].metadata || attempt.metadata !in Maps()
      modifies `attempts
      ensures Valid() && attempts == old(attempts)[i := attempt]
      ensures Views() == old(Views())[i := View(i)]
    {
      ghost var before := Views();
      attempts := attempts[i := attempt];
      assert forall j :: 0 <= j < |attempts| && j != i ==> View(j) == before[j];
    }

    method FinalizeAttempt(i: nat, step: Step, now: int, failing: bool) returns (ok: bool)
      requires Valid() && i < |attempts|
      modifies `attempts, Maps()
      ensures Valid() && |attempts| == |old(attempts)| && ok == !failing
      ensures ok ==> Views() == old(Views())[i := FinalizedView(old(Views())[i], step, now)]
      ensures !ok ==> attempts == old(attempts) && Views() == Marked(old(Views()), i, attempts[i].metadata != null)
    {
      ghost var before := Views();
      var attempt := MarkReply(i, step, now);
      if failing {
        return false;
      }
      ghost var marked := Views();
      StoreAttempt(i, attempt);
      assert View(i) == FinalizedView(before[i], step, now);
      assert marked[i := View(i)] == before[i := View(i)];
      return true;
    }

    /** Writes the attempt's outcome; when the write fails, the mark stays behind in the shared map. */
    method FinalizeBlockedAttempt(id: nat, step: Step, now: int, failing: bool) returns (ok: bool)
      requires Valid()
      modifies `attempts, Maps()
      ensures Valid() && |attempts| == |old(attempts)|
      ensures ok <==> LatestBlocked(old(Views()), id).None? || !failing
      ensures ok ==> Views() == FinalizedViews(old(Views()), id, step, now)
      ensures !ok ==> attempts == old(attempts)
      ensures !ok ==> var i := LatestBlocked(old(Views()), id).value;
                      Views() == Marked(old(Views()), i, attempts[i].metadata != null)
    {
      var found := FindLatestBlockedAttempt(id);
      if found.None? {
        return true;
      }
      ok := FinalizeAttempt(found.value, step, now, failing);
    }

    method RestoreAttempt(i: nat, attempt: Attempt, entries: map<string, string>)
      requires Valid() && i < |attempts|
      modifies `attempts
      ensures Valid()
      ensures Views() == old(Views())[i := AttemptView(attempt.approval, attempt.status, attempt.step, attempt.finishedAt, entries)]
    {
      var copy := new Meta(entries);
      StoreAttempt(i, attempt.(metadata := copy));
    }

    // ---- answering ----

    method UndoApproval(id: nat, before: Approval)
      requires id < |approvals|
      modifies `approvals
      ensures |approvals| == |old(approvals)| && Records() == old(Records())[id := before]
    {
      var ok := UpdateApproval(id, Versioned(before, approvals[id].version + 1));
    }

    method UndoAttempt(found: Option<nat>, attempt: Attempt, entries: map<string, string>)
      requires Valid() && (found.Some? ==> found.value < |attempts|)
      modifies `attempts
      ensures Valid()
      ensures Views() == RestoredViews(old(Views()), found,
                           AttemptView(attempt.approval, attempt.status, attempt.step, attempt.finishedAt, entries))
    {
      if found.Some? {
        RestoreAttempt(found.value, attempt, entries);
      }
    }

    /** Approving touches the record and the session only. */
    method Approve(id: nat, reply: Reply, failing: Option<Write>) returns (fault: Option<ResponseFault>)
      requires Valid() && id < |approvals| && (reply.Once? || reply.Always?)
      modifies `approvals, `session
      ensures failing == Some(ToApprovals) || failing == Some(ToSessions) ==>
                fault == Some(WriteFailed(failing.value)) && Holding(old(State()))
      ensures failing != Some(ToApprovals) && failing != Some(ToSessions) ==>
                && fault.None? && session.value == old(session.value).(execution := Idle)
                && Records() == old(Records())[id := old(Records())[id].(status := Approved, reply := reply)]
    {
      if failing == Some(ToApprovals) {
        return Some(WriteFailed(ToApprovals));
      }
      var rec := approvals[id];
      var stored := UpdateApproval(id, Versioned(rec.value.(status := Approved, reply := reply), rec.version + 1));
      if failing == Some(ToSessions) {
        UndoApproval(id, rec.value);
        return Some(WriteFailed(ToSessions));
      }
      var updated := UpdateSession(Versioned(session.value.(execution := Idle), session.version + 1));
      return None;
    }

    /** The snapshot once everything is written. */
    ghost function RejectedSnapshot(id: nat, now: int): Snapshot
      requires id < |approvals|
      reads this, Maps()
    {
      var rec := approvals[id].value;
      var failed := rec.step.(status := Failed);
      Snapshot(
        Records()[id := rec.(status := Rejected, reply := Reject)],
        FinalizedViews(Views(), id, failed, now),
        StepsOf(WriteStep(plans, failed, DEFAULT_BUDGETS)),
        if task.Some? then Some(TaskFailed) else None,
        RejectedSession(session.value, rec.stepID))
    }

    /** The snapshot a failed attempt write leaves behind. */
    ghost function MarkedSnapshot(id: nat): Snapshot
      reads this, Maps()
    {
      match LatestBlocked(Views(), id)
      case None => State()
      case Some(i) => State().(attempts := Marked(Views(), i, attempts[i].metadata != null))
    }

    /** The snapshot that a failing write leaves, once everything before it has been taken back. */
    ghost function LeftSnapshot(id: nat, write: Write): Snapshot
      requires id < |approvals|
      reads this, Maps()
    {
      var step := approvals[id].value.step;
      match write
      case ToApprovals => State()
      case ToAttempts => MarkedSnapshot(id)
      case _ => State().(plans := PlansAfterUndo(plans, step, step.(status := Failed), write))
    }

    /** The record and the attempt, or neither; only the mark of a failed attempt write may stay. */
    method AnswerRecordAndAttempt(id: nat, failed: Step, now: int, failing: Option<Write>) returns (fault: Option<ResponseFault>)
      requires Valid() && id < |approvals|
      modifies `approvals, `attempts, Maps()
      ensures Valid() && |approvals| == |old(approvals)| && |attempts| == |old(attempts)|
      ensures fault.Some? <==> ReachedEarly(failing, LatestBlocked(old(Views()), id))
      ensures fault.Some? ==> fault == Some(WriteFailed(failing.value)) && Records() == old(Records())
      ensures fault == Some(WriteFailed(ToApprovals)) ==> Views() == old(Views())
      ensures fault == Some(WriteFailed(ToAttempts)) ==>
                var i := LatestBlocked(old(Views()), id).value;
                Views() == Marked(old(Views()), i, old(attempts)[i].metadata != null)
      ensures fault.None? ==> Views() == FinalizedViews(old(Views()), id, failed, now)
      ensures fault.None? ==> Records() == old(Records())[id := old(Records())[id].(status := Rejected, reply := Reject)]
    {
      if failing == Some(ToApprovals) {
        return Some(WriteFailed(ToApprovals));
      }
      var rec := approvals[id];
      var stored := UpdateApproval(id, Versioned(rec.value.(status := Rejected, reply := Reject), rec.version + 1));
      assert Records() == old(Records())[id := rec.value.(status := Rejected, reply := Reject)];
      var finalized := FinalizeBlockedAttempt(id, failed, now, failing == Some(ToAttempts));
      if !finalized {
        UndoApproval(id, rec.value);
        return Some(WriteFailed(ToAttempts));
      }
      return None;
    }

    /** Plan, task and session, or none of them: the first failing write takes the earlier ones back, the plan's by
        storing the record's step in it again. */
    method AnswerPlanTaskAndSession(original: Step, failed: Step, stepID: string, failing: Option<Write>)
      returns (fault: Option<ResponseFault>)
      modifies `plans, `task, `session
      ensures fault.Some? <==> ReachedLate(failing, old(task))
      ensures fault.Some? ==> fault == Some(WriteFailed(failing.value)) && task == old(task) && session == old(session)
                              && PlanSteps() == PlansAfterUndo(old(plans), original, failed, failing.value)
      ensures fault.None? ==> plans == WriteStep(old(plans), failed, DEFAULT_BUDGETS)
                              && task == (if old(task).Some? then Some(TaskFailed) else None)
                              && session.value == RejectedSession(old(session).value, stepID)
    {
      if failing == Some(ToPlans) {
        return Some(WriteFailed(ToPlans));
      }
      UpdatePlanStep(failed);
      var before := task;
      if task.Some? {
        if failing == Some(ToTasks) {
          RestorePlanStep(original);
          return Some(WriteFailed(ToTasks));
        }
        task := Some(TaskFailed);
      }
      if failing == Some(ToSessions) {
        task := before;
        RestorePlanStep(original);
        return Some(WriteFailed(ToSessions));
      }
      var updated := UpdateSession(Versioned(RejectedSession(session.value, stepID), session.version + 1));
      return None;
    }

    method OriginalAttempt(id: nat) returns (found: Option<nat>, attempt: Attempt, entries: map<string, string>)
      requires Valid() && id < |approvals|
      ensures found == LatestBlocked(Views(), id)
      ensures found.Some? ==> AttemptView(attempt.approval, attempt.status, attempt.step, attempt.finishedAt, entries) == Views()[found.value]
    {
      found := FindLatestBlockedAttempt(id);
      attempt, entries := Attempt(None, AttemptBlocked, approvals[id].value.step, 0, null), map[];
      if found.Some? {
        attempt := attempts[found.value];
        entries := if attempt.metadata == null then map[] else attempt.metadata.entries;
      }
    }

    /** Takes back the attempt and the record: `records` and `views` are what there was. */
    method UndoAnswer(id: nat, rec: Approval, found: Option<nat>, attempt: Attempt, entries: map<string, string>,
                      ghost now: int, ghost records: seq<Approval>, ghost views: seq<AttemptView>)
      requires Valid() && id < |records| && records[id] == rec && found == LatestBlocked(views, id)
      requires Records() == records[id := rec.(status := Rejected, reply := Reject)]
      requires Views() == FinalizedViews(views, id, rec.step.(status := Failed), now)
      requires found.Some? ==> AttemptView(attempt.approval, attempt.status, attempt.step, attempt.finishedAt, entries) == views[found.value]
      modifies `approvals, `attempts
      ensures Valid() && Records() == records && Views() == views
    {
      FinalizedThenRestored(views, id, rec.step.(status := Failed), now,
        AttemptView(attempt.approval, attempt.status, attempt.step, attempt.finishedAt, entries));
      UndoAttempt(found, attempt, entries);
      UndoApproval(id, rec);
    }

    /** The second half, with the first half taken back when it fails: `records` and `views` are what there was. */
    method FinishOrUndo(id: nat, rec: Approval, found: Option<nat>, attempt: Attempt, entries: map<string, string>,
                        failing: Option<Write>, ghost now: int, ghost records: seq<Approval>, ghost views: seq<AttemptView>)
      returns (fault: Option<ResponseFault>)
      requires Valid() && id < |records| && records[id] == rec && found == LatestBlocked(views, id)
      requires Records() == records[id := rec.(status := Rejected, reply := Reject)]
      requires Views() == FinalizedViews(views, id, rec.step.(status := Failed), now)
      requires found.Some? ==> AttemptView(attempt.approval, attempt.status, attempt.step, attempt.finishedAt, entries) == views[found.value]
      modifies this
      ensures Valid()
      ensures fault.Some? <==> ReachedLate(failing, old(task))
      ensures fault.Some? ==>
                && fault == Some(WriteFailed(failing.value))
                && Records() == records && Views() == views
                && PlanSteps() == PlansAfterUndo(old(plans), rec.step, rec.step.(status := Failed), failing.value)
                && task == old(task) && session == old(session)
      ensures fault.None? ==>
                && Records() == old(Records()) && Views() == old(Views())
                && plans == WriteStep(old(plans), rec.step.(status := Failed), DEFAULT_BUDGETS)
                && task == (if old(task).Some? then Some(TaskFailed) else None)
                && session.value == RejectedSession(old(session).value, rec.stepID)
    {
      fault := AnswerPlanTaskAndSession(rec.step, rec.step.(status := Failed), rec.stepID, failing);
      if fault.Some? {
        UndoAnswer(id, rec, found, attempt, entries, now, records, views);
      }
    }

    /** The waiting attempt shares its map with the store, and the map does not carry the reply yet. */
    ghost predicate WouldShow(id: nat)
      reads this, Maps()
    {
      match LatestBlocked(Views(), id)
      case None => false
      case Some(i) =>
        attempts[i].metadata != null
        && !(REPLY_KEY in View(i).entries && View(i).entries[REPLY_KEY] == "reject")
    }

    /** Whether that is the snapshot from before the call. */
    ghost predicate Restores(id: nat, write: Write)
      requires id < |approvals|
      reads this, Maps()
    {
      match write
      case ToAttempts => !WouldShow(id)
      case ToTasks => Undoable(plans, approvals[id].value.step, approvals[id].value.step.(status := Failed))
      case ToSessions => Undoable(plans, approvals[id].value.step, approvals[id].value.step.(status := Failed))
      case _ => true
    }

    lemma RestoresMeans(id: nat, write: Write)
      requires id < |approvals|
      ensures LeftSnapshot(id, write) == State() <==> Restores(id, write)
    {
      if write.ToAttempts? && LatestBlocked(Views(), id).Some? {
        var i := LatestBlocked(Views(), id).value;
        MarkShows(Views(), i, attempts[i].metadata != null);
      }
      PlanUndone(plans, approvals[id].value.step, approvals[id].value.step.(status := Failed));
    }

    /** The five writes of a rejection, taken back from the one that fails. */
    method WriteRejection(id: nat, now: int, failing: Option<Write>) returns (fault: Option<ResponseFault>)
      requires Valid() && id < |approvals|
      modifies this, Maps()
      ensures Valid()
      ensures fault.Some? <==> ReachedEarly(failing, LatestBlocked(old(Views()), id)) || ReachedLate(failing, old(task))
      ensures fault.Some? ==> fault == Some(WriteFailed(failing.value)) && Records() == old(Records())
                              && task == old(task) && session.value == old(session.value)
      ensures fault.Some? && failing != Some(ToAttempts) ==> Views() == old(Views())
      ensures fault == Some(WriteFailed(ToAttempts)) ==>
                var i := LatestBlocked(old(Views()), id).value;
                Views() == Marked(old(Views()), i, old(attempts)[i].metadata != null)
      ensures fault.Some? ==>
                var step := old(approvals)[id].value.step;
                PlanSteps() == if failing == Some(ToApprovals) || failing == Some(ToAttempts) then old(PlanSteps())
                               else PlansAfterUndo(old(plans), step, step.(status := Failed), failing.value)
      ensures fault.None? ==> Holding(old(RejectedSnapshot(id, now)))
    {
      ghost var records, views := Records(), Views();
      var rec := approvals[id].value;
      var found, attempt, entries := OriginalAttempt(id);
      fault := AnswerRecordAndAttempt(id, rec.step.(status := Failed), now, failing);
      if fault.None? {
        fault := FinishOrUndo(id, rec, found, attempt, entries, failing, now, records, views);
      }
    }

    /** All or nothing, exactly so: after a failing write everything reads as before, unless the attempt's map is
        shared with the store and shows the mark, or the plan did not hold the record's step as it is stored again. */
    method RejectApproval(id: nat, now: int, failing: Option<Write>) returns (fault: Option<ResponseFault>)
      requires Valid() && id < |approvals|
      modifies this, Maps()
      ensures Valid()
      ensures fault.Some? <==> ReachedEarly(failing, LatestBlocked(old(Views()), id)) || ReachedLate(failing, old(task))
      ensures fault.Some? ==> fault == Some(WriteFailed(failing.value)) && Holding(old(LeftSnapshot(id, failing.value)))
      ensures fault.Some? ==> (Holding(old(State())) <==> old(Restores(id, failing.value)))
      ensures fault.None? ==> Holding(old(RejectedSnapshot(id, now)))
    {
      if failing.Some? {
        RestoresMeans(id, failing.value);
      }
      fault := WriteRejection(id, now, failing);
    }

    ghost function Books(): World
      reads this
    {
      World(session.value, plans, Records(), [], [])
    }

    /** The kernel's state after an accepted response, read as a snapshot of what it keeps. */
    ghost predicate Answered(answer: World)
      reads this, Maps()
    {
      session.value == answer.session && Records() == answer.approvals && PlanSteps() == StepsOf(answer.plans)
    }

    lemma RejectedIsAnswer(id: nat, now: int)
      requires KernelOperations.RespondApproval(Books(), id, Reject).Ok? && id < |approvals|
      ensures var answer := KernelOperations.RespondApproval(Books(), id, Reject).value;
              RejectedSnapshot(id, now).session == answer.session && RejectedSnapshot(id, now).approvals == answer.approvals
              && RejectedSnapshot(id, now).plans == StepsOf(answer.plans)
    {
    }

    method CheckResponse(id: nat, reply: Reply) returns (fault: Option<Fault>)
      ensures fault == match KernelOperations.RespondApproval(Books(), id, reply) case Ok(_) => None case Err(f) => Some(f)
      ensures fault.None? ==> id < |approvals| && session.value.pendingApproval == Some(id) && !reply.NoReply?
    {
      if id >= |approvals| {
        return Some(ApprovalNotFound);
      }
      if !approvals[id].value.status.ApprovalPending? || session.value.pendingApproval != Some(id) {
        return Some(ApprovalNotPending);
      }
      if reply.NoReply? {
        return Some(InvalidReply);
      }
      return None;
    }

    /** Which failing writes a response gets as far as. */
    predicate Reached(reply: Reply, failing: Option<Write>, waiting: Option<nat>)
      reads `task
    {
      if reply.Reject? then ReachedEarly(failing, waiting) || ReachedLate(failing, task)
      else failing == Some(ToApprovals) || failing == Some(ToSessions)
    }

    /** A response the kernel accepts: it goes through, or a write on the way fails. */
    method Respond(id: nat, reply: Reply, now: int, failing: Option<Write>) returns (fault: Option<ResponseFault>)
      requires Valid() && id < |approvals| && KernelOperations.RespondApproval(Books(), id, reply).Ok?
      modifies this, Maps()
      ensures Valid()
      ensures fault.Some? <==> old(Reached(reply, failing, LatestBlocked(Views(), id)))
      ensures fault.None? ==> Answered(old(KernelOperations.RespondApproval(Books(), id, reply)).value)
      ensures fault.None? && reply.Reject? ==>
                && AttemptsAnswered(old(Views()), Views(), id, old(approvals)[id].value.step.(status := Failed), now)
                && task == if old(task).Some? then Some(TaskFailed) else None
      ensures fault.None? && !reply.Reject? ==> Views() == old(Views()) && task == old(task)
      ensures fault.Some? ==>
                && fault == Some(WriteFailed(failing.value))
                && (Holding(old(State())) <==> !reply.Reject? || old(Restores(id, failing.value)))
    {
      if reply.Reject? {
        RejectedIsAnswer(id, now);
        FinalizedMeans(Views(), id, approvals[id].value.step.(status := Failed), now);
        fault := RejectApproval(id, now, failing);
      } else {
        fault := Approve(id, reply, failing);
      }
    }

    /** The whole call. The kernel decides: what it declines is declined and changes nothing; what it accepts goes
        through as it prescribes, unless a write on the way fails. Then everything is as before, exactly unless the
        answer was a rejection that could not be taken back. */
    method RespondApproval(id: nat, reply: Reply, now: int, failing: Option<Write>) returns (fault: Option<ResponseFault>)
      requires Valid()
      modifies this, Maps()
      ensures Valid()
      ensures (fault.Some? && fault.value.Declined?) <==> old(KernelOperations.RespondApproval(Books(), id, reply)).Err?
      ensures old(KernelOperations.RespondApproval(Books(), id, reply)).Err? ==>
                fault == Some(Declined(old(KernelOperations.RespondApproval(Books(), id, reply)).error)) && Holding(old(State()))
      ensures (fault.Some? && fault.value.WriteFailed?) <==>
                old(KernelOperations.RespondApproval(Books(), id, reply)).Ok? && old(Reached(reply, failing, LatestBlocked(Views(), id)))
      ensures fault.None? ==>
                && old(KernelOperations.RespondApproval(Books(), id, reply)).Ok?
                && Answered(old(KernelOperations.RespondApproval(Books(), id, reply)).value)
      ensures fault.None? && reply.Reject? ==>
                && id < |old(approvals)|
                && AttemptsAnswered(old(Views()), Views(), id, old(approvals)[id].value.step.(status := Failed), now)
                && task == if old(task).Some? then Some(TaskFailed) else None
      ensures fault.None? && !reply.Reject? ==> Views() == old(Views()) && task == old(task)
      ensures fault.Some? && fault.value.WriteFailed? ==>
                && failing == Some(fault.value.write) && id < |old(approvals)|
                && (Holding(old(State())) <==> !reply.Reject? || old(Restores(id, failing.value)))
    {
      var declined := CheckResponse(id, reply);
      if declined.Some? {
        return Some(Declined(declined.value));
      }
      fault := Respond(id, reply, now, failing);
    }
  }
}

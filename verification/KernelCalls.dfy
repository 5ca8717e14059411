/** What the other calls do to the books: when they take effect, and what of the session and its records they change. A
    call that does not take effect leaves everything as it was. */
module KernelCalls {
  import opened PlanModel
  import opened StepSelection
  import opened SessionKernel
  import opened KernelOperations
  import opened StepCalls

  /** All records but this one are as they were. */
  predicate OnlyRecord(approvals: seq<Approval>, after: seq<Approval>, id: nat) {
    |after| == |approvals| && id < |approvals| && forall i :: 0 <= i < |approvals| && i != id ==> after[i] == approvals[i]
  }

  predicate OnlyBlocked(blocked: seq<BlockedStatus>, after: seq<BlockedStatus>, id: nat, status: BlockedStatus) {
    && |after| == |blocked| && id < |blocked| && after[id] == status
    && forall i :: 0 <= i < |blocked| && i != id ==> after[i] == blocked[i]
  }

  // ---- answering an approval ----

  /** The session waits for this very record, and it has not been answered. */
  predicate Awaited(w: World, id: nat) {
    id < |w.approvals| && w.session.pendingApproval == Some(id) && w.approvals[id].status == ApprovalPending
  }

  /** An answer takes effect on the awaited record only. Approved, the record keeps the answer, and the session stays with
      it, to be resumed; rejected, the session is over with it and its step has failed. */
  lemma ResponseLeaves(w: World, b: Budgets, id: nat, reply: Reply)
    ensures var v := Apply(w, b, Respond(id, reply));
            && v.blocked == w.blocked && v.log == w.log
            && (RespondApproval(w, id, reply).Ok? <==> Awaited(w, id) && !reply.NoReply?)
            && (!Awaited(w, id) || reply.NoReply? ==> v == w)
            && (Awaited(w, id) && !reply.NoReply? ==>
                  && OnlyRecord(w.approvals, v.approvals, id)
                  && v.approvals[id] == w.approvals[id].(status := if reply.Reject? then Rejected else Approved, reply := reply))
            && (Awaited(w, id) && (reply.Once? || reply.Always?) ==>
                  v.plans == w.plans && v.session == w.session.(execution := Idle))
            && (Awaited(w, id) && reply.Reject? ==>
                  && v.session.phase.PhaseFailed? && v.session.pendingApproval.None? && v.session.execution.Idle?
                  && v.session.inFlightStep == ""
                  && v.session.currentStep == (if w.approvals[id].stepID == "" then w.session.currentStep else w.approvals[id].stepID)
                  && v.session.planRef == w.session.planRef && v.session.blockedRuntime == w.session.blockedRuntime
                  && v.session.runtimeStartedAt == w.session.runtimeStartedAt && v.session.retryCount == w.session.retryCount
                  && v.session.interruptedAt == w.session.interruptedAt
                  && v.plans == WriteStep(w.plans, w.approvals[id].step.(status := Failed), DEFAULT_BUDGETS))
  {
  }

  /** Which fault an answer meets. */
  lemma ResponseFaults(w: World, id: nat, reply: Reply)
    ensures var r := RespondApproval(w, id, reply);
            && (r == Err(ApprovalNotFound) <==> id >= |w.approvals|)
            && (r == Err(ApprovalNotPending) <==> id < |w.approvals| && !Awaited(w, id))
            && (r == Err(InvalidReply) <==> Awaited(w, id) && reply.NoReply?)
  {
  }

  /** The awaited record was answered, and says of which step. */
  predicate Resumable(w: World) {
    && w.session.pendingApproval.Some? && w.session.pendingApproval.value < |w.approvals|
    && var rec := w.approvals[w.session.pendingApproval.value];
       rec.status == Approved && rec.reply != NoReply && rec.stepID == rec.step.stepID && rec.toolName == rec.step.toolName
  }

  /** Resuming runs the record's step on the grant of the record, or changes nothing. */
  lemma ResumptionLeaves(w: World, b: Budgets, a: Answers)
    ensures var v := Apply(w, b, ResumeApproval(a));
            && (!Resumable(w) ==> v == w && ResumePendingApproval(w, b, a).Err?)
            && (Resumable(w) ==>
                  var id := w.session.pendingApproval.value;
                  var grant := Grant(id, if w.approvals[id].reply.Reject? then Deny else Allow);
                  v == match RunStepWithDecision(w, w.approvals[id].step, Some(grant), b, a) case Ok(u) => u case Err(_) => w)
  {
  }

  /** Which fault a resumption meets before the step is looked at. */
  lemma ResumptionFaults(w: World, b: Budgets, a: Answers)
    requires !Resumable(w)
    ensures ResumePendingApproval(w, b, a)
            == Err(match w.session.pendingApproval
                   case None => NoPendingApproval
                   case Some(id) => if id < |w.approvals| then ApprovalNotResolved else ApprovalNotFound)
  {
  }

  // ---- blocked runtimes ----

  predicate BlockedBy(w: World, id: nat) {
    id < |w.blocked| && w.session.blockedRuntime == Some(id) && w.session.execution == ExecutionBlocked
  }

  /** A session is blocked unless it is over, awaits an answer or is blocked already; the record is new and pending. */
  lemma BlockingLeaves(w: World, b: Budgets)
    ensures var v, s, n := Apply(w, b, CreateBlocked), w.session, |w.blocked|;
            if Over(s) || s.pendingApproval.Some? || s.blockedRuntime.Some? || s.execution.ExecutionBlocked? then v == w
            else
              && v.blocked[..n] == w.blocked && |v.blocked| == n + 1 && v.blocked[n].BlockedPending?
              && v.session == s.(execution := ExecutionBlocked, blockedRuntime := Some(n))
              && v.plans == w.plans && v.approvals == w.approvals && v.log == w.log
  {
  }

  /** An answer to the record that blocks the session is kept as it was given, and changes nothing else. */
  lemma BlockedAnswerLeaves(w: World, b: Budgets, id: nat, status: BlockedStatus)
    ensures var v := Apply(w, b, RespondBlocked(id, status));
            if BlockedBy(w, id) && w.blocked[id] == BlockedPending
               && (status.BlockedApproved? || status.BlockedRejected? || status.BlockedConfirmed?)
            then v == w.(blocked := v.blocked) && OnlyBlocked(w.blocked, v.blocked, id, status)
            else v == w
  {
  }

  /** Resuming or aborting the record that blocks the session sets the session free; the record says which it was. */
  lemma BlockedEndLeaves(w: World, b: Budgets, id: nat)
    ensures var resumed, aborted := Apply(w, b, ResumeBlocked(id)), Apply(w, b, AbortBlocked(id));
            if BlockedBy(w, id) && w.blocked[id] != BlockedResumed && w.blocked[id] != BlockedAborted then
              && resumed == w.(session := w.session.(execution := Idle, blockedRuntime := None), blocked := resumed.blocked)
              && aborted == w.(session := w.session.(execution := Idle, blockedRuntime := None), blocked := aborted.blocked)
              && OnlyBlocked(w.blocked, resumed.blocked, id, BlockedResumed)
              && OnlyBlocked(w.blocked, aborted.blocked, id, BlockedAborted)
            else resumed == w && aborted == w
  {
  }

  /** Which fault a call on blocked runtimes meets. */
  lemma BlockedFaults(w: World, id: nat, status: BlockedStatus)
    ensures match CreateBlockedRuntime(w)
            case Ok(_) => true
            case Err(fault) =>
              fault == if Over(w.session) then SessionTerminal
                       else if w.session.pendingApproval.Some? then SessionAwaitingApproval else AlreadyBlocked
    ensures match RespondBlockedRuntime(w, id, status)
            case Ok(_) => true
            case Err(fault) =>
              fault == if status == BlockedPending || status == BlockedResumed || status == BlockedAborted then InvalidReply
                       else if BlockedBy(w, id) then BlockedNotPending else BlockedNotActive
    ensures match ResolveBlockedRuntime(w, id, status) case Ok(_) => true case Err(fault) => fault == BlockedNotActive
  {
  }

  // ---- abort ----

  /** The step the session was at. */
  function ActiveStep(s: Session): string {
    if s.currentStep != "" then s.currentStep else s.inFlightStep
  }

  /** The step with this id in the plan the session names, else in its latest, has failed over the abort; all else of the
      plans, their statuses included, is as it was. */
  ghost predicate ActiveStepFails(plans: seq<Plan>, after: seq<Plan>, planRef: nat, id: string) {
    && |after| == |plans|
    && (forall k :: 0 <= k < |plans| ==> after[k] == plans[k].(steps := after[k].steps) && |after[k].steps| == |plans[k].steps|)
    && (forall k, i :: 0 <= k < |plans| && 0 <= i < |plans[k].steps| ==>
          after[k].steps[i] == if IsActive(plans, planRef, id, k, i)
                               then plans[k].steps[i].(status := Failed, reason := "session aborted") else plans[k].steps[i])
  }

  /** Step `i` of plan `k` is the first with this id in the plan the session names, else in its latest. */
  predicate IsActive(plans: seq<Plan>, planRef: nat, id: string, k: nat, i: nat) {
    && k < |plans| && i < |plans[k].steps| && id != ""
    && (if 0 < planRef <= |plans| then k == planRef - 1 else plans[|plans|-1].own && k == |plans| - 1)
    && plans[k].steps[i].stepID == id && forall j :: 0 <= j < i ==> plans[k].steps[j].stepID != id
  }

  lemma ActiveFails(plans: seq<Plan>, planRef: nat, id: string)
    ensures ActiveStepFails(plans, FailActiveStep(plans, planRef, id), planRef, id)
  {
    var after, k := FailActiveStep(plans, planRef, id), PlanIndex(plans, planRef);
    if k < |plans| && id != "" {
      match FindStep(plans[k].steps, id)
      case None =>
      case Some(i) =>
        forall j | 0 <= j < |plans[k].steps| ensures IsActive(plans, planRef, id, k, j) <==> j == i { }
    }
  }

  /** Nothing the session waited for is left, and it is over. */
  predicate SessionAborted(s: Session, t: Session) {
    t == s.(phase := PhaseAborted, execution := Idle, inFlightStep := "", pendingApproval := None, blockedRuntime := None,
            currentStep := ActiveStep(s))
  }

  /** An awaited record is closed: rejected if it was pending, used up if it was approved; its step failed over the abort. */
  predicate RecordClosed(before: Approval, after: Approval) {
    && after.step == before.step.(status := Failed, reason := "session aborted")
    && after.stepID == before.stepID && after.toolName == before.toolName && after.scope == before.scope
    && match before.status
       case ApprovalPending => after.status == Rejected && after.reply == Reject
       case Approved => after.status == Consumed && after.reply == before.reply
       case _ => after.status == before.status && after.reply == before.reply
  }

  /** Aborting ends an open session, with what it waited for: the awaited record is closed, or else the record that blocks
      it aborted, or else the step it was at has failed. Aborted sessions stay as they are, and other ends stand. */
  lemma AbortLeaves(w: World, b: Budgets)
    ensures var v, s := Apply(w, b, Operation.Abort), w.session;
            && v.log == w.log
            && (Over(s) ==> v == w)
            && (!Over(s) && s.pendingApproval.Some? ==>
                  var id := s.pendingApproval.value;
                  if id >= |w.approvals| then v == w
                  else SessionAborted(s, v.session) && OnlyRecord(w.approvals, v.approvals, id)
                       && RecordClosed(w.approvals[id], v.approvals[id]) && v.blocked == w.blocked
                       && v.plans == WriteStep(w.plans, w.approvals[id].step.(status := Failed, reason := "session aborted"), DEFAULT_BUDGETS))
            && (!Over(s) && s.pendingApproval.None? && s.blockedRuntime.Some? ==>
                  var id := s.blockedRuntime.value;
                  if id >= |w.blocked| then v == w
                  else SessionAborted(s, v.session) && OnlyBlocked(w.blocked, v.blocked, id, BlockedAborted)
                       && v.approvals == w.approvals && v.plans == w.plans)
            && (!Over(s) && s.pendingApproval.None? && s.blockedRuntime.None? ==>
                  SessionAborted(s, v.session) && v.approvals == w.approvals && v.blocked == w.blocked
                  && ActiveStepFails(w.plans, v.plans, s.planRef, ActiveStep(s)))
  {
    ActiveFails(w.plans, w.session.planRef, ActiveStep(w.session));
  }

  /** An abort is refused exactly when the session ended otherwise, or what it waits for is not on record. */
  lemma AbortFaults(w: World)
    ensures var r, s := AbortSession(w), w.session;
            && (r == Err(SessionTerminal) <==> s.phase == Complete || s.phase == PhaseFailed)
            && (r == Err(ApprovalNotFound) <==>
                  !Over(s) && s.pendingApproval.Some? && s.pendingApproval.value >= |w.approvals|)
            && (r == Err(BlockedNotActive) <==>
                  !Over(s) && s.pendingApproval.None? && s.blockedRuntime.Some? && s.blockedRuntime.value >= |w.blocked|)
            && (r.Err? ==> r.error in {SessionTerminal, ApprovalNotFound, BlockedNotActive})
  {
  }

  // ---- marks ----

  predicate OnlySession(w: World, v: World) {
    v == w.(session := v.session)
  }

  /** Marked in flight within its time, a session remembers the step as in flight, is pinned to the plan that step is of,
      and its clock runs; nothing else changes. */
  lemma InFlightLeaves(w: World, b: Budgets, id: string, now: int)
    ensures var v, s := Apply(w, b, InFlightCall(id, now)), w.session;
            if Late(s, b, now) then v == w
            else
              && OnlySession(w, v) && Refers(s, w.plans, id, v.session.planRef)
              && v.session == s.(execution := InFlight, inFlightStep := id, planRef := v.session.planRef,
                                 runtimeStartedAt := if s.runtimeStartedAt == 0 then now else s.runtimeStartedAt)
  {
    MarkRefers(w.session, w.plans, id, now);
  }

  /** Marked interrupted, it is to be recovered, whatever phase it was in, and says since when. */
  lemma InterruptLeaves(w: World, b: Budgets, now: int)
    ensures var v := Apply(w, b, InterruptedCall(now));
            OnlySession(w, v) && v.session == w.session.(execution := Interrupted, interruptedAt := now, phase := Recover)
  {
  }

  /** Before it is recovered, a session that was left in the middle is put to rest, at the step it was at, in recovery unless
      it is over; one that was not is left alone. */
  lemma NormalizeLeaves(w: World, b: Budgets)
    ensures var v, s := Apply(w, b, Normalize), w.session;
            if s.execution == InFlight || s.execution == Interrupted then
              && OnlySession(w, v)
              && v.session == s.(execution := Idle, phase := if Over(s) then s.phase else Recover, currentStep := ActiveStep(s))
            else v == w
  {
  }

  /** What is refused is refused over a budget. */
  lemma BudgetFaults(w: World, b: Budgets, id: string, now: int, steps: seq<Step>)
    ensures var r := MarkSessionInFlight(w, b, id, now);
            (r == Err(RuntimeBudgetExceeded) <==> Late(w.session, b, now)) && (r.Err? ==> r.error == RuntimeBudgetExceeded)
    ensures var r, spent := CreatePlanOp(w, b, steps), b.maxPlanRevisions > 0 && HasPlan(w.plans)
                            && w.plans[|w.plans|-1].revision >= b.maxPlanRevisions;
            (r == Err(PlanRevisionBudgetExceeded) <==> spent) && (r.Err? ==> r.error == PlanRevisionBudgetExceeded)
  {
  }

  lemma AttachmentLeaves(w: World, b: Budgets)
    ensures var v := Apply(w, b, AttachTask); OnlySession(w, v) && v.session == w.session.(phase := Received)
  {
  }

  /** A plan that is handed in becomes the session's next, unless its revisions are used up. */
  lemma PlanCallLeaves(w: World, b: Budgets, steps: seq<Step>)
    ensures var v, n := Apply(w, b, CreatePlanCall(steps)), |w.plans|;
            if b.maxPlanRevisions > 0 && HasPlan(w.plans) && w.plans[n-1].revision >= b.maxPlanRevisions then v == w
            else
              && v == w.(plans := v.plans) && |v.plans| == n + 1 && v.plans[..n] == w.plans
              && v.plans[n].own && v.plans[n].planID == n + 1 && v.plans[n].status.Active?
              && v.plans[n].revision == (if HasPlan(w.plans) then w.plans[n-1].revision else 0) + 1
              && |v.plans[n].steps| == |steps|
              && forall i :: 0 <= i < |steps| ==>
                   v.plans[n].steps[i] == steps[i].(status := if steps[i].status.Unset? then Pending else steps[i].status,
                                                    planID := if steps[i].planID == 0 then n + 1 else steps[i].planID)
  {
  }

  /** The calls that run the driver, or one step, are what they are called. */
  lemma RunningCalls(w: World, b: Budgets, opening: Answers, step: Step, a: Answers)
    ensures Apply(w, b, Drive(opening, a)) == DriverTurn(w, b, opening, a).world
    ensures Apply(w, b, RunStepCall(step, a)) == match RunStepWithDecision(w, step, None, b, a) case Ok(v) => v case Err(_) => w
  {
  }
}

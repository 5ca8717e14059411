/** Which step the session driver runs next, and why it never gets stuck on a plan it should go on with. */
module StepSelection {
  import opened PlanModel
  import opened Aggregates
  import opened PlanOutcome

  datatype Selection = RunStep(step: Step) | NeedsPlanning | NothingToRun

  predicate Waiting(s: Step) {
    s.status.Unset? || s.status.Pending?
  }

  predicate Executable(s: Step, b: Budgets) {
    match s.status
    case Unset => true
    case Pending => true
    case Running => true
    case Failed =>
      (match NormalizedOnFailStrategy(s)
       case Replan => false
       case Abort => false
       case Continue => s.attempt < AllowedAttempts(s, b)
       case _ => true)
    case _ => false
  }

  function ExecutableStepByID(steps: seq<Step>, id: string, b: Budgets): (r: Option<Step>)
    ensures r.Some? ==> r.value in steps && r.value.stepID == id && Executable(r.value, b)
  {
    if id == "" then None
    else match FindStep(steps, id)
      case None => None
      case Some(k) => if Executable(steps[k], b) then Some(steps[k]) else None
  }

  function PinnedStep(currentStep: string, inFlightStep: string, steps: seq<Step>, b: Budgets): (r: Option<Step>)
    ensures r.Some? ==> r.value in steps && r.value.stepID in {currentStep, inFlightStep} && Executable(r.value, b)
  {
    var flying := ExecutableStepByID(steps, inFlightStep, b);
    if flying.Some? then flying else ExecutableStepByID(steps, currentStep, b)
  }

  function FirstPending(steps: seq<Step>): (r: Option<nat>)
    ensures r.Some? ==> r.value < |steps| && steps[r.value] in steps && Waiting(steps[r.value])
                        && forall j :: 0 <= j < r.value ==> !Waiting(steps[j])
    ensures r.None? ==> forall s :: s in steps ==> !Waiting(s)
  {
    if steps == [] then None
    else if Waiting(steps[0]) then Some(0)
    else match FirstPending(steps[1..])
      case Some(k) => Some(k + 1)
      case None => assert forall s :: s in steps <==> s == steps[0] || s in steps[1..]; None
  }

  function FirstFailed(steps: seq<Step>, b: Budgets): (r: Option<nat>)
    ensures r.Some? ==> r.value < |steps| && steps[r.value] in steps && steps[r.value].status.Failed? && !Spent(steps[r.value], b)
    ensures r.None? ==> forall s :: s in steps && s.status.Failed? ==> Spent(s, b)
  {
    if steps == [] then None
    else if steps[0].status.Failed? && !Spent(steps[0], b) then Some(0)
    else match FirstFailed(steps[1..], b)
      case Some(k) => Some(k + 1)
      case None => assert forall s :: s in steps <==> s == steps[0] || s in steps[1..]; None
  }

  /** The choice when no step is pinned by the session. */
  function SelectUnpinned(latest: seq<Step>, b: Budgets): (r: Selection)
    ensures r.RunStep? ==> r.step in latest
  {
    match FirstPending(latest)
    case Some(k) => RunStep(latest[k])
    case None =>
      match FirstFailed(latest, b)
      case None => NothingToRun
      case Some(k) =>
        match NormalizedOnFailStrategy(latest[k])
        case Replan => NeedsPlanning
        case Abort => NothingToRun
        case _ => RunStep(latest[k])
  }

  function SelectNextStep(currentStep: string, inFlightStep: string, pinned: seq<Step>, latest: seq<Step>, b: Budgets): (r: Selection)
    ensures r.RunStep? ==> r.step in pinned || r.step in latest
  {
    match PinnedStep(currentStep, inFlightStep, pinned, b)
    case Some(step) => RunStep(step)
    case None => SelectUnpinned(latest, b)
  }

  // ---- selector and outcome ----

  /** While the outcome says go on, the unpinned selector comes up empty exactly when nothing waits and every
      failed step has used up a `continue` strategy: then only running, blocked or skipped steps keep the plan open. */
  lemma IdleExactlyWhen(steps: seq<Step>, b: Budgets)
    requires VerdictOf(steps, b).GoOn?
    ensures SelectUnpinned(steps, b).NothingToRun? <==>
              (forall s :: s in steps ==> !Waiting(s)) && (forall s :: s in steps && s.status.Failed? ==> Spent(s, b))
  {
    match FirstPending(steps) {
      case Some(k) =>
      case None =>
        match FirstFailed(steps, b) {
          case None =>
          case Some(k) =>
            assert !DoomsPlan(steps, steps[k], b);
        }
    }
  }

  /** With only pending, completed and failed steps the session never gets stuck: go on means something is selected. */
  lemma NeverStuck(currentStep: string, inFlightStep: string, pinned: seq<Step>, steps: seq<Step>, b: Budgets)
    requires forall s :: s in steps ==> s.status.Unset? || s.status.Pending? || s.status.Completed? || s.status.Failed?
    requires VerdictOf(steps, b).GoOn?
    ensures !SelectNextStep(currentStep, inFlightStep, pinned, steps, b).NothingToRun?
  {
    IdleExactlyWhen(steps, b);
    if SelectUnpinned(steps, b).NothingToRun? {
      forall s | s in steps ensures !KeepsPending(steps, s, b) && !KeepsRecoverable(steps, s, b) {
        if s.status.Failed? && Tagged(s) {
          assert MemberOf(s, s.metadata.aggregateID);
        }
      }
    }
  }

  /** A step that is skipped keeps its aggregate open without ever being selectable: the other statuses matter. */
  lemma StuckWithSkippedMember()
    ensures exists steps: seq<Step>, b :: VerdictOf(steps, b).GoOn? && SelectUnpinned(steps, b).NothingToRun?
  {
    var b := Budgets(8, 0, 8, 0);
    var tag := PLAIN.(aggregateID := "a", aggregateScope := TARGET_FANOUT);
    var spent := Step(1, "x", "t", OnFail("continue", 0, 0), Failed, 1, "", tag);
    var skipped := Step(1, "y", "t", OnFail("continue", 0, 0), Skipped, 0, "", tag);
    var steps := [spent, skipped];
    assert skipped in steps && MemberOf(skipped, "a");
    assert spent in steps && KeepsPending(steps, spent, b);
    assert !DoomsPlan(steps, spent, b);
    assert !MustGiveUp(steps, b);
    IdleExactlyWhen(steps, b);
  }

  /** Once the outcome is done, whatever the session remembers, nothing of this plan is selected. */
  lemma DoneSelectsNothing(currentStep: string, inFlightStep: string, steps: seq<Step>, b: Budgets)
    requires VerdictOf(steps, b).Done?
    ensures SelectNextStep(currentStep, inFlightStep, steps, steps, b).NothingToRun?
  {
    assert forall s :: s in steps ==> !KeepsPending(steps, s, b) && !KeepsRecoverable(steps, s, b) && !DoomsPlan(steps, s, b);
  }
}

/** Plans, steps and budgets, as the kernel stores them. */
module PlanModel {

  datatype Option<+T> = None | Some(value: T)

  datatype Result<+T, +E> = Ok(value: T) | Err(error: E)

  /** `Unset` is the empty status string; `Other` any string that is none of the named ones. */
  datatype StepStatus = Unset | Pending | Running | Blocked | Completed | Failed | Skipped | Other(name: string)

  datatype OnFail = OnFail(strategy: string, maxRetries: int, backoffMS: int)

  datatype Target = Target(targetID: string, kind: string)

  /** What a step carries to label the aggregate it belongs to. */
  datatype Labels = Labels(programID: string, nodeID: string, title: string, strategy: string)

  /** The metadata entries of a step: aggregate tag, target, verification scope and backoff, which steer control, and labels. */
  datatype Metadata = Metadata(
    aggregateID: string, aggregateScope: string, aggregateExpected: int, maxConcurrency: Option<int>,
    target: Target, verifyAggregate: bool, aggregateVerify: bool, retryNotBefore: Option<int>, labels: Labels)

  const TARGET_FANOUT := "target_fanout"

  const PLAIN := Metadata("", "", 0, None, Target("", ""), false, false, None, Labels("", "", "", ""))

  /** `planID` names the plan a step belongs to; 0 says it carries no plan identity. */
  datatype Step = Step(
    planID: nat, stepID: string, toolName: string, onFail: OnFail,
    status: StepStatus, attempt: int, reason: string, metadata: Metadata)

  datatype PlanStatus = Active | PlanCompleted | PlanFailed

  /** `own` tells the plans of the session at hand from those of other sessions, which live in the same store. The
      revision counts the plans of one session. */
  datatype Plan = Plan(planID: nat, own: bool, revision: nat, status: PlanStatus, steps: seq<Step>)

  datatype Budgets = Budgets(maxSteps: int, maxRetriesPerStep: int, maxPlanRevisions: int, maxTotalRuntimeMS: int)

  datatype Strategy = Retry | Continue | Abort | Replan | Reinspect

  /** Any name but these four means to retry. */
  function StrategyNamed(name: string): Strategy {
    if name == "continue" then Continue
    else if name == "abort" then Abort
    else if name == "replan" then Replan
    else if name == "reinspect" then Reinspect
    else Retry
  }

  function NormalizedOnFailStrategy(step: Step): Strategy {
    StrategyNamed(step.onFail.strategy)
  }

  function AllowedAttempts(step: Step, b: Budgets): (n: int)
    ensures n >= 1
  {
    var capped := if b.maxRetriesPerStep < 0 then 0 else b.maxRetriesPerStep;
    var own := step.onFail.maxRetries;
    var retries := if own > 0 && (capped == 0 || own < capped) then own else capped;
    retries + 1
  }

  predicate Exhausted(step: Step, b: Budgets) {
    step.attempt >= AllowedAttempts(step, b)
  }

  /** The session-wide retry cap bounds every step exactly when it is positive:
      zero and negative caps let the step's own `max_retries` through. */
  lemma RetryCapHoldsIffPositive(b: Budgets)
    ensures (forall step: Step :: AllowedAttempts(step, b) <= (if b.maxRetriesPerStep < 0 then 0 else b.maxRetriesPerStep) + 1)
            <==> b.maxRetriesPerStep > 0
  {
    if b.maxRetriesPerStep <= 0 {
      var greedy := Step(0, "s", "", OnFail("", 7, 0), Pending, 0, "", PLAIN);
      assert AllowedAttempts(greedy, b) == 8;
    }
  }

  predicate Tagged(step: Step) {
    step.metadata.aggregateID != ""
  }

  predicate Unfinished(step: Step) {
    step.status.Unset? || step.status.Pending? || step.status.Running? || step.status.Blocked?
  }

  function BackoffActive(step: Step, now: int): bool {
    step.metadata.retryNotBefore.Some? && step.metadata.retryNotBefore.value > now
  }

  // ---- step identity within a plan ----

  ghost predicate DistinctIDs(steps: seq<Step>) {
    forall i, j :: 0 <= i < j < |steps| ==> steps[i].stepID != steps[j].stepID
  }

  function FindStep(steps: seq<Step>, id: string): (r: Option<nat>)
    ensures r.Some? ==> r.value < |steps| && steps[r.value].stepID == id
                        && forall j :: 0 <= j < r.value ==> steps[j].stepID != id
    ensures r.None? ==> forall j :: 0 <= j < |steps| ==> steps[j].stepID != id
  {
    if steps == [] then None
    else if steps[0].stepID == id then Some(0)
    else match FindStep(steps[1..], id)
      case Some(k) => Some(k + 1)
      case None => None
  }

  /** The first step carrying the same id is overwritten; nothing else moves. */
  function ReplaceStep(steps: seq<Step>, step: Step): (r: seq<Step>)
    ensures |r| == |steps|
    ensures forall i :: 0 <= i < |steps| ==> r[i].stepID == steps[i].stepID
  {
    match FindStep(steps, step.stepID)
    case Some(k) => steps[k := step]
    case None => steps
  }

  /** Exactly the first step with the id gives way. */
  lemma ReplacesFirst(steps: seq<Step>, step: Step, i: nat)
    requires i < |steps|
    ensures ReplaceStep(steps, step)[i]
            == if steps[i].stepID == step.stepID && (forall j :: 0 <= j < i ==> steps[j].stepID != step.stepID) then step else steps[i]
  {
    match FindStep(steps, step.stepID)
    case Some(k) => assert i > k ==> steps[k].stepID == step.stepID;
    case None =>
  }

  function AnnotateStep(step: Step, planID: nat): Step {
    if step.planID == 0 then step.(planID := planID) else step
  }
}

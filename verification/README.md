# The session kernel, verified

A Dafny model of the session kernel in `pkg/harness/runtime` and of the session, plan, approval and aggregate stores
it drives. Planner, policy, tools, verifiers and clock appear as answers that may be anything; what the kernel does
with them is written out and proved about.

- `PlanModel`, `Aggregates`, `PlanOutcome`, `StepSelection`: plans, their order-free verdict, and the selector.
- `PlanVerdicts`, `AggregateReports`: verdicts and aggregate results read off the steps.
- `ProgramGraph`, `Kahn`, `ProgramCompiler`: the two topological compilers.
- `SessionKernel`: one turn of the driver as a state machine over a session's records. `SessionDriver` is the service
  as a class; each of its methods is tied to that machine. `FanoutRounds` holds the loops of a fan-out round.
- `StepCalls`, `RoundCalls`, `RoundResults`, `DriverTurns`, `KernelCalls`: what running a step, a round, a turn and
  every other call do, told by what can be seen from outside and not by the machine's own functions.
- `BatchWrites`: the batched store write against the single one.
- `DriverBudget`, `DriverRun`: why the driver ends, and how many tools it invokes. `DriverClock`: how the runtime budget
  ends it. `DriverLimits`: exactly when it does not end.
- `Reconcile`: the session's phase against the stored plan status.
- `KernelOperations`, `KernelInvariants`, `KernelRuns`, `BlockedRuns`: all other calls, and what every run of calls keeps.
- `ProgramTrack`, `ProgramRun`, `ProgramLimits`: a compiled program under the driver, end to end, and which programs
  keep their order.
- `SessionStore`, `SessionUpdate`, `LeaseProtocol`: leases, compare-and-set, many workers.
- `FanoutScheduler`: the goroutines of a round under every schedule.
- `ApprovalSaga`: answering an approval without a transaction, undone by hand.
- `Replay`: projections of events and facts.

Check everything with `dafny verify dfyconfig.toml`.

Where the model takes a stand: plans are named by their place in the store, approvals and blocked records by creation
order. The store holds the plans of all sessions: first those of others, in any number, then the session's own in the
order of their creation. A plan identity on a step leads to the plan of that name, whichever session it is of, as the
code looks plans up by id alone (`pkg/harness/runtime/plan_identity.go:71-89`); one that is the number of no stored plan
stands for any name that is not there, and leads to the session's latest plan. The identity that reads add to plan steps
is added when the plan is created. One turn reads the clock once, but the test whether a failed member of a round is in
backoff reads the system clock, as the code does. Answering and aborting an approval recompute the plan status with the
default budgets and not the configured ones, because the code does (`pkg/harness/runtime/runner.go:676-678`). Calls on
one session take effect one after the other. Where clocks are spoken of, none reads zero, which is what an unset start
looks like.

Budgets may be any numbers here. `New` replaces every one that is not positive by a positive default
(`pkg/harness/runtime/options.go:146-165`), so zero and negative ones reach the code only through the service's exported
`LoopBudgets` field, set afterwards.

In the table the main results are marked; the other rows are what they rest on.

## What turned out not to hold

- The retry cap is no bound when it is zero or negative (`PlanModel.RetryCapHoldsIffPositive`), as it can be only if
  `LoopBudgets` is set after `New`.
- The driver loop ends by itself only under conditions: distinct step ids (`DriverLimits.EndsIffDistinctIDs`), a
  positive revision budget (`DriverLimits.EndsIffPlanningBounded`), and planned steps that name no plan stored by then,
  another session's or an earlier one of the session (`DriverLimits.EndsIffIdentityHarmless`). Nothing strips the
  identity of a step that was read from a stored plan and is planned again, so its result goes to that plan and it is
  selected again (`DriverLimits.BorrowedStepsRunForever`). Otherwise only the runtime budget ends the loop, and each of
  the three conditions is exact up to that. With a budget that is set, as `New` always leaves it, and a clock that goes
  on, the loop does end, by `RuntimeBudgetExceeded` if by nothing else (`DriverClock.RuntimeBudgetEnds`).
- A step held back lets the driver rest only while it is a step of the plan: resuming an answered step that is held back
  faults the call (`DriverTurns.FaultsOverBackoffIff`).
- A step verified with its aggregate can be completed though its tool reported an error: the one that settles the
  aggregate in a round, if its result is marked good all the same (`RoundResults.CompletedWithoutSuccess`).
- A plan with a skipped aggregate member can stay open with nothing to run (`StepSelection.StuckWithSkippedMember`).
- With a later plan, phase and stored plan status may disagree (`Reconcile.AgreementIffLatest`).
- A dead lease can come back to life, because renewals read the clock before they reach the store
  (`LeaseProtocol.RevivedExactlyBy`); claims still never overlap.
- A failed attempt write leaves `approval_reply` in the stored attempt's metadata, because the store hands out its own
  map (`ApprovalSaga.MarkShows`); and a rejection is taken back from the plan by storing the approval's own copy of
  the step, which is what was there only if the plan held that copy (`ApprovalSaga.PlanUndone`).
- Marking a blocked session in flight or interrupted strands its record (`BlockedRuns.AnswerableExactlyWhen`).
- Interrupting a session that failed with an aborting step, or attaching a task to it, reopens it past that step
  (`ProgramLimits.InterruptKeepsOrderIff`, `ProgramLimits.AttachKeepsOrderIff`).
- Marking a later step in flight makes it run before the step in front (`ProgramLimits.InFlightKeepsOrderIff`).
- Steps that run together let what comes behind run early, unless they abort on failure
  (`ProgramLimits.ConcurrentKeepsOrderIff`).

## Model

| member | source | states |
|---|---|---|
| `PlanModel.AllowedAttempts` | pkg/harness/runtime/budgets.go:45-54 | A step always has at least one attempt, whatever the caps are. |
| `PlanModel.RetryCapHoldsIffPositive` | pkg/harness/runtime/budgets.go:45-54 | The session-wide retry cap bounds every step exactly when it is positive; a cap of zero or less lets the step's own `max_retries` through. |
| `PlanModel.FindStep` | pkg/harness/runtime/session_driver.go:229-236 | The first step with an id, or none has it. |
| `PlanModel.ReplaceStep` | pkg/harness/runtime/plan_outcome.go:129-138 | Replacing a step keeps the number of steps and every id in its place. |
| `PlanModel.ReplacesFirst` | pkg/harness/runtime/plan_outcome.go:129-138 | Exactly the first step with the id gives way to the new one. |
| `ProgramGraph.TopologicalHasNoCycle` | pkg/harness/runtime/program.go:104-106 | A graph with an order that places every node after its dependencies has no cycle. |
| `ProgramGraph.StuckMeansCycle` | pkg/harness/runtime/program.go:79-106 | Nodes left over when nothing is ready any more lie on a dependency cycle. |
| `ProgramGraph.GreedyIsLeast` | pkg/harness/runtime/program.go:75-102 | **Main.** Always taking the ready node declared first gives the lexicographically least of all topological orders. |
| `ProgramGraph.DepthAboveDependencies` | pkg/harness/runtime/program_compile.go:96-113 | A node whose deepest dependency has depth n has depth n+1, depth being the longest dependency chain. |
| `ProgramGraph.DepthUnique` | pkg/harness/runtime/program_compile.go:96-113 | A node has one depth only. |
| `Kahn.BuildDependents` | pkg/harness/runtime/program.go:60-68 | Dependents mirror dependencies occurrence by occurrence, so a dependency listed twice is counted twice. |
| `Kahn.Roots` | pkg/harness/runtime/program.go:70-77 | In-degrees are the numbers of listed dependencies; the first ready nodes are those without any, in declaration order. |
| `Kahn.ReleaseDependents` | pkg/harness/runtime/program.go:93-98 | After one node is done, in-degrees count exactly what is still waited for, and the nodes returned are exactly those that became ready, once each. |
| `ProgramCompiler.IndexNodes` | pkg/harness/runtime/program.go:41-51 | Accepts exactly node lists with non-empty, distinct ids, and names the first offence. |
| `ProgramCompiler.ResolveDependencies` | pkg/harness/runtime/program.go:59-68 | Succeeds exactly when every dependency is declared, and then yields the declared graph. |
| `ProgramCompiler.CheckProgram` | pkg/harness/runtime/program.go:41-68 | Which error a malformed program gets, in the order the code checks: ids, entry nodes, dependencies. |
| `ProgramCompiler.StepsFromProgram` | pkg/harness/runtime/program.go:31-108 | **Main.** Succeeds exactly when the validated graph is acyclic and every node expands; a cycle error means there is a cycle; the nodes come in the lexicographically least topological order by declaration index; every node has one step for each of its targets, in their order, or one if it has none, each with the node's tool, waiting, with its target in its metadata and in its id; several make up one aggregate called as the node; and there are no other steps. |
| `ProgramCompiler.CompiledIs` | pkg/harness/runtime/program.go:110-205 | The steps put together node after node are exactly those: max(1, targets) for every node, step i for target i, each where it belongs. |
| `ProgramCompiler.ExpandedInto` | pkg/harness/runtime/program.go:110-205 | Expanding a node: as many steps as it has targets, the i-th for target i, with the node's tool, id, failure rule, verification scope and company. |
| `ProgramCompiler.SortAscends` | pkg/harness/runtime/program.go:75-77 | Re-sorting the ready list by declaration index keeps its elements. |
| `ProgramCompiler.LevelledIsLevelOrder` | pkg/harness/runtime/program_compile.go:96-118 | First come, first served emits nodes in nondecreasing longest-dependency depth. |
| `ProgramCompiler.OrderedProgramNodes` | pkg/harness/runtime/program_compile.go:70-119 | **Main.** Accepts exactly the valid acyclic node sets, the ones `StepsFromProgram` accepts, and emits a topological order level by level. |
| `Aggregates.AggregateResultsFromSteps` | pkg/harness/execution/aggregate.go:129-215 | One result per aggregate id by first occurrence, labelled as its first member, with the counts, status, expected number and sorted targets of exactly its members. |
| `Aggregates.AggregatesConserveSteps` | pkg/harness/execution/aggregate.go:129-215 | **Main.** Every tagged step lands in exactly one aggregate, as often as it occurs. |
| `Aggregates.CountsConserveTargets` | pkg/harness/execution/aggregate.go:129-212 | Completed, failed and pending add up to the number of targets, which are the members' results in target order. |
| `Aggregates.AggregatesInFirstOccurrenceOrder` | pkg/harness/execution/aggregate.go:136-214 | Aggregates are reported in the order in which their first members stand in the plan. |
| `Aggregates.SortTargetsSorts` | pkg/harness/execution/aggregate.go:188-200 | Sorting targets orders them and loses or repeats none. |
| `Aggregates.StringLessMeans` | pkg/harness/execution/aggregate.go:188-200 | One string comes before another exactly if it is a proper prefix of it, or has the lesser character where they first differ. |
| `AggregateReports.ReportMeans` | pkg/harness/execution/aggregate.go:129-215 | **Main.** What a result says, read off the plan: labels, scope and limit are the first member's; completed and failed are the numbers of places whose step has that status; completed, failed, partly failed and pending exactly when those numbers say so; the targets tell of every member and of nothing else, by target id, those without one last, and then by step id. |
| `AggregateReports.ReportedIDs` | pkg/harness/execution/aggregate.go:129-215 | Results are for exactly the ids steps are tagged with, one each. |
| `PlanOutcome.VerdictIsOrderFree` | pkg/harness/runtime/plan_outcome.go:18-95 | The verdict depends only on which steps occur, not on order or repetition. |
| `PlanOutcome.VerdictIsPermutationInvariant` | pkg/harness/runtime/plan_outcome.go:18-95 | Permuting a plan's steps leaves the verdict as it is. |
| `PlanOutcome.AggregateStatusMeans` | pkg/harness/runtime/plan_outcome.go:47-62 | An aggregate is pending exactly when a member is neither completed nor failed, and failed exactly when all members failed. |
| `PlanOutcome.AggregateExhaustedAsFailed` | pkg/harness/runtime/plan_outcome.go:97-115 | True exactly when the aggregate has a member, none is unfinished or completed, and every failed one is out of attempts. |
| `PlanOutcome.AggregateVerificationReady` | pkg/harness/runtime/program_verify_runtime.go:49-65 | True exactly when no member is unfinished or may be tried again. |
| `PlanOutcome.ExhaustedIffReadyWithoutSuccess` | pkg/harness/runtime/plan_outcome.go:97-115 | Giving an aggregate up means: it has a member, it is ready for verification, and no member completed. |
| `PlanOutcome.ClassifyStep` | pkg/harness/runtime/plan_outcome.go:27-67 | What one step contributes: dooms the plan, keeps it pending, keeps it recoverable, or nothing. |
| `PlanOutcome.NoAggregateFailedAfterScan` | pkg/harness/runtime/plan_outcome.go:85-93 | When the step loop found nothing to do, no aggregate is left that failed. |
| `PlanOutcome.FinalSweep` | pkg/harness/runtime/plan_outcome.go:85-93 | The closing sweep over the aggregates never fires. |
| `PlanOutcome.PlanExecutionOutcomeForSpec` | pkg/harness/runtime/plan_outcome.go:18-95 | **Main.** The computed outcome is the order-free verdict, with a reason that names an existing step of that kind and the aggregates of the plan. |
| `PlanVerdicts.VerdictMeans` | pkg/harness/runtime/plan_outcome.go:18-115 | **Main.** The verdict, read off statuses, strategy names and attempts: give up exactly when a step failed that aborts, or one that continues in an aggregate all of which failed for good; done exactly when no step does that and each is done with; else go on. |
| `PlanVerdicts.ReadyMeans` | pkg/harness/runtime/program_verify_runtime.go:49-65 | An aggregate is ready for verification exactly when no member is open or failed with attempts left. |
| `PlanVerdicts.StatusMeans` | pkg/harness/runtime/plan_outcome.go:117-127 | A plan is stored as failed, active or completed as the verdict is to give up, to go on or done. |
| `StepSelection.PinnedStep` | pkg/harness/runtime/session_driver.go:166-178 | A pinned step is one the session named, and executable. |
| `StepSelection.SelectNextStep` | pkg/harness/runtime/session_driver.go:146-164 | A selected step is one of the pinned or of the latest plan. |
| `DriverTurns.SelectedNext` | pkg/harness/runtime/session_driver.go:146-227 | **Main.** What is selected: the step in flight, else the current one, if the pinned plan's first step of that id may be run; else the first step of the latest plan not started; else its first failed step that is not used up, as its strategy says: run again, planned anew, or nothing; else nothing. |
| `DriverTurns.NextIsOne` | pkg/harness/runtime/session_driver.go:146-227 | That description leaves one choice. |
| `StepSelection.IdleExactlyWhen` | pkg/harness/runtime/session_driver.go:146-227 | While the outcome says continue, the selector comes up empty exactly when nothing waits and every failed step has spent a `continue` strategy. |
| `StepSelection.NeverStuck` | pkg/harness/runtime/session_driver.go:146-227 | **Main.** With only pending, completed and failed steps, continue means a step is selected or planning is asked for. |
| `StepSelection.StuckWithSkippedMember` | pkg/harness/runtime/session_driver.go:180-227 | A skipped member of an aggregate can keep a plan open with nothing to select. |
| `StepSelection.DoneSelectsNothing` | pkg/harness/runtime/session_driver.go:146-227 | When the outcome is neither fail nor continue, nothing of this plan is selected, whatever the session remembers. |
| `SessionKernel.EveryOpenPhaseReachesExecute` | pkg/harness/runtime/loop.go:19-45 | From every phase that is not terminal the advance loop ends in execute; terminal phases stay. |
| `SessionKernel.FindReusable` | pkg/harness/runtime/approval_flow.go:273-295 | The record found is approved, answered "always" and of the same scope; none is found only if none exists. |
| `StepCalls.StepFaults` | pkg/harness/runtime/runner.go:34-136 | **Main.** Every fault of running a step, each if and only if it is the first reason to apply: session over, blocked, awaiting another answer, out of time, out of attempts, held back, refused. |
| `StepCalls.StepDecided` | pkg/harness/runtime/runner.go:137-174 | **Main.** A step without a grant of its own: its tool is invoked if the policy allows it, or asks and an approval answered "always" for the step's own scope stands, which is what it runs on; if the policy asks and none stands, nothing is invoked and a fresh pending record of that step and scope is left; if it denies, nothing is invoked or asked and the step fails. With it, everything each case leaves in session, plans, records and log. |
| `StepCalls.StepForced` | pkg/harness/runtime/approval_flow.go:225-271 | A resumed step runs, or is denied, on the grant of its record, whatever the policy says by then. |
| `StepCalls.ExecuteLeaves` | pkg/harness/runtime/runner.go:376-674 | What a tool run leaves: one invocation; the step completed exactly if it succeeded by its own verifier, or by its tool and, once the aggregate is in, the aggregate's verifier; an attempt on, held back only before another try; once-approvals used up; and the phase its strategy and attempts lead to. |
| `StepCalls.StepWritten` | pkg/harness/runtime/runner.go:680-707 | Storing a step: it stands where the first with its id stood, in the plan it names or else the session's latest, whose status is what its steps now say; all else is as it was. |
| `StepCalls.MarkRefers` | pkg/harness/runtime/plan_identity.go:36-58 | The plan a session works on once it is at a step, as its pinned plan or its latest names it. |
| `SessionKernel.RoundStepsAre` | pkg/harness/runtime/fanout_scheduler.go:58-100 | The round is made of exactly the runnable members of the selected step's aggregate. |
| `SessionKernel.PreparedWhen` | pkg/harness/runtime/fanout_scheduler.go:207-258 | A round is prepared exactly when every step is within its attempts and either in backoff or readable and not asked about; it is called off only over a question, faulted only over attempts or a refusal; what is prepared carries the decision of the policy or of a standing grant. |
| `RoundCalls.RoundTakesPlaceIff` | pkg/harness/runtime/fanout_scheduler.go:58-177 | **Main.** A round takes place if and only if the selected step asks for company and has some, the session may work, no member is out of attempts, unreadable or asked about without a standing approval, and two members are not held back. |
| `RoundCalls.RoundFaults` | pkg/harness/runtime/fanout_scheduler.go:103-258 | Which fault a round ends in, by the session or by the first member in the way; a question, or too few that take part, calls it off without a fault. |
| `RoundResults.RoundLeaves` | pkg/harness/runtime/fanout_scheduler.go:280-553 | **Main.** What a round leaves, told of every step of the plan: who takes part is an attempt on; a denied member has failed and is not in the log; a member is completed only if it was invoked and succeeded, on the step scope by its verifier alone, on the aggregate scope by its tool, or, for the one that settles the aggregate, by the aggregate's verifier; others are as they were. The log grows by exactly the members that run, each once, on the policy's word or a standing approval of its scope; and it says what the session, its failure count and the plan's status become. |
| `RoundResults.CompletedWithoutSuccess` | pkg/harness/runtime/fanout_scheduler.go:712-777 | A member completed without a success of its own: if and only if it settles the aggregate, its tool reported an error with a result marked good, and the aggregate's verifier agreed. |
| `SessionKernel.ReplaceSteps` | pkg/harness/runtime/fanout_scheduler.go:787-802 | All replacements at once: a step takes the last replacement with its id, or stays. |
| `FanoutRounds.FanoutRoundForSelection` | pkg/harness/runtime/fanout_scheduler.go:58-101 | The gathering loop yields the runnable members of the selected step's aggregate, or no round when there are fewer than two. |
| `FanoutRounds.PrepareFanoutRound` | pkg/harness/runtime/fanout_scheduler.go:207-258 | The preparing loop meets its specification: budget faults, steps in backoff left out, and no round when a step needs an answer. |
| `FanoutRounds.AggregateKnown` | pkg/harness/runtime/fanout_scheduler.go:723-732 | The aggregate is found among the results exactly when some step is tagged with it. |
| `FanoutRounds.SettleRound` | pkg/harness/runtime/fanout_scheduler.go:426-456 | The loops over the outcomes leave the specified results and count the failures, the settled aggregate step twice. |
| `FanoutRounds.ReplacePlanSteps` | pkg/harness/runtime/fanout_scheduler.go:787-802 | The in-place loop over the shared slice computes the batch replacement. |
| `FanoutRounds.ReplaceProvisionalThenSettled` | pkg/harness/runtime/fanout_scheduler.go:450-458 | Rewriting the shared slice for the provisional and then for the settled outcomes equals one rewrite with the settled ones. |
| `BatchWrites.BatchWriteIsFold` | pkg/harness/runtime/fanout_scheduler.go:804-836 | On a plan with distinct ids the batched store write equals folding single-step writes: same plan chosen, same identities added, same steps, same stored status. |
| `BatchWrites.BatchWriteIsFoldIffDistinct` | pkg/harness/runtime/fanout_scheduler.go:804-836 | **Main.** The two store writes agree on every batch for a plan exactly when the plan's step ids are distinct, because the single write replaces the first match only. |
| `BatchWrites.SecondBatchWins` | pkg/harness/runtime/fanout_scheduler.go:450-458 | Applying a batch over its own provisional version gives the same plan as applying it alone. |
| `DriverBudget.WriteKeepsStored` | pkg/harness/runtime/runner.go:680-707 | Whatever step is written, the plans of all sessions keep distinct ids, and no step comes to name a plan stored before its own. |
| `DriverBudget.CreatePlanEffect` | pkg/harness/plan/store.go:27-56 | A new plan takes the session's next revision, is stored well behind all others and adds its own attempts, if its steps have distinct ids and name no stored plan. |
| `DriverBudget.PlannedCost` | pkg/harness/runtime/budgets.go:45-54 | With a positive retry cap r, n fresh steps cost at most n(r+1) attempts. |
| `DriverBudget.RunStepPays` | pkg/harness/runtime/runner.go:34-674 | Running a selected step pays for its invocation with an attempt of a live plan, wherever its result is stored; if the driver goes on, less is outstanding. |
| `DriverBudget.ResumePays` | pkg/harness/runtime/approval_flow.go:225-271 | Resuming an approved record pays for its invocation too, whether or not the plan still holds the record's step. |
| `DriverBudget.RoundPays` | pkg/harness/runtime/fanout_scheduler.go:103-177 | A fan-out round pays for every invocation with an attempt and leaves fewer. |
| `DriverBudget.PlanningReplans` | pkg/harness/runtime/planning.go:41-256 | Planning adds one plan within the revision budget, or changes nothing the budgets look at; given that the planner's steps have distinct ids and name no stored plan. |
| `DriverBudget.SelectedIsSelectable` | pkg/harness/runtime/session_driver.go:146-236 | The selected step is one of the latest plan, or of the plan the session is pinned to by a step id. |
| `DriverRun.TurnShrinks` | pkg/harness/runtime/session_driver.go:30-136 | Every turn of the loop ends it or makes (revisions left, what live plans and an awaited approval can still cost) lexicographically smaller, for planners whose plans have distinct ids and name no stored plan, with re-planning bounded. |
| `DriverRun.DriverEnds` | pkg/harness/runtime/session_driver.go:30-136 | **Main.** The loop ends whatever policy, tools, verifiers and clock answer and whatever the planner plans, if re-planning is bounded and what becomes a plan has distinct ids and names no plan stored by then, of whichever session. |
| `DriverRun.TurnSpends` | pkg/harness/runtime/session_driver.go:30-136 | Invocations made plus credit left never grows. |
| `DriverRun.RunSpends` | pkg/harness/runtime/session_driver.go:30-136 | The same along a whole run. |
| `DriverRun.InvocationsBounded` | pkg/harness/runtime/session_driver.go:30-136 | **Main.** From a session without a plan that awaits nothing and is pinned to none: for such planners, whose steps moreover start with non-negative attempt counters, and with positive retry and revision caps, one call makes at most MaxPlanRevisions * MaxSteps * (MaxRetriesPerStep + 1) tool invocations. |
| `DriverClock.TurnAnchors` | pkg/harness/runtime/planning.go:41-256 | A turn that is not the last leaves the session timed: from where it was, or from a reading of that turn. |
| `DriverClock.LateTurnEnds` | pkg/harness/runtime/budgets.go:28-36 | A turn of a timed session that comes later than the runtime budget allows is the last, whatever the session is doing. |
| `DriverClock.PassedBudgetEnds` | pkg/harness/runtime/budgets.go:28-36 | A session whose clock is running, and any one turn that comes too late for it: the loop ends. |
| `DriverClock.RuntimeBudgetEnds` | pkg/harness/runtime/session_driver.go:30-136 | **Main.** With a positive runtime budget and a clock that passes every bound, the loop ends from every session state, under any other budgets and whatever is planned: repeated ids, borrowed identities, plan after plan. |
| `DriverLimits.RepeatedIDRunsForever` | pkg/harness/runtime/runner.go:690-696 | While the runtime budget lasts, a plan in which any id occurs twice is run turn after turn: the later step's result is stored over the earlier one, with an invocation each time. |
| `DriverLimits.EndsIffDistinctIDs` | pkg/harness/runtime/runner.go:690-696 | **Main.** For every list of waiting, unshared, unnamed steps a planner keeps handing out and every clock: from a new session, in a store with any plans of others, the driver ends on all other answers if and only if the ids are distinct or the runtime budget runs out. |
| `DriverLimits.ReplanningRunsForever` | pkg/harness/runtime/planning.go:141-168 | While the runtime budget lasts, a planner that keeps answering one failing step is run turn after turn, if revisions are unbounded, or if the step names another session's plan or an early one of its own: its results are stored there and it stays pending. |
| `DriverLimits.BorrowedStepsRunForever` | pkg/harness/runtime/plan_identity.go:71-89 | **Main.** A session whose plan was made of two or more waiting steps read from another session's plan: with every tool succeeding its first step is invoked every turn while the runtime budget lasts, though the ids may be distinct and nothing is ever planned. |
| `DriverLimits.EndsIffPlanningBounded` | pkg/harness/runtime/budgets.go:11-26 | **Main.** For every clock: the loop ends from every sound, untimed session, on all answers whose plans have distinct ids and name no stored plan, if and only if MaxPlanRevisions is positive, or MaxSteps is not, or the runtime budget runs out. |
| `DriverLimits.TurnKeepsCount` | pkg/harness/runtime/session_driver.go:30-136 | A turn makes no plan for another session: what the revision does not count stays the same. |
| `DriverLimits.EndsIffIdentityHarmless` | pkg/harness/runtime/planning.go:141-168 | **Main.** For planners whose steps name plan r or none, in a new session beside any n plans of others and for every clock: the loop always ends if and only if there is nothing to plan, or MaxPlanRevisions is positive and r is 0 or at least n + MaxPlanRevisions, or the runtime budget runs out. |
| `DriverLimits.EndsIffHarmlessEverywhere` | pkg/harness/runtime/planning.go:141-168 | **Main.** The same condition is exact for all sound, untimed sessions beside n plans of others. |
| `SessionDriver.Service.UpdateLatestPlanStep` | pkg/harness/runtime/runner.go:680-707 | The loop that overwrites the first match and recomputes the plan status stores the step as specified. |
| `SessionDriver.Service.UpdateLatestPlanSteps` | pkg/harness/runtime/fanout_scheduler.go:804-836 | The batched plan write. |
| `SessionDriver.OverwriteSteps` | pkg/harness/runtime/fanout_scheduler.go:814-825 | The overwrite loop replaces by id and reports whether anything matched. |
| `SessionDriver.Service.AggregateReady` | pkg/harness/runtime/program_verify_runtime.go:25-47 | The aggregate verifier is due exactly when the latest plan has a member and no member is unfinished or may be tried again. |
| `SessionDriver.Service.Verify` | pkg/harness/runtime/runner.go:463-541 | When a step counts as verified: on its own, or with its aggregate once that is due, never without its own success. |
| `SessionDriver.Service.NextPhaseAfter` | pkg/harness/runtime/plan_outcome.go:151-169 | The phase after a step, reconciled with the latest plan when it was verified or has spent `continue`. |
| `SessionDriver.Service.RequestApproval` | pkg/harness/runtime/runner.go:158-292 | Asking parks the step, stores a pending record and leaves the session waiting in execute. |
| `SessionDriver.Service.RefuseStep` | pkg/harness/runtime/runner.go:294-374 | A denied step fails, and the session with it. |
| `SessionDriver.Service.InvokeStep` | pkg/harness/runtime/runner.go:376-674 | Running the tool: session, plan, approval and log end up as the state machine prescribes. |
| `SessionDriver.Service.RunStepWithDecision` | pkg/harness/runtime/runner.go:34-674 | Guards in the code's order; a fault leaves everything as it was, otherwise ask, deny or execute. |
| `SessionDriver.Service.PersistRound` | pkg/harness/runtime/fanout_scheduler.go:425-553 | A round's results are settled, stored in one batch, and the session moved on by the plan's outcome. |
| `SessionDriver.Service.FinishRound` | pkg/harness/runtime/fanout_scheduler.go:458-466 | The session after a round, rebased on the stored one. |
| `SessionDriver.Service.TryRunFanoutRound` | pkg/harness/runtime/fanout_scheduler.go:103-177 | A round is run, declined or faults exactly as specified; declined and faulted rounds change nothing. |
| `SessionDriver.Service.CreatePlanFromPlanner` | pkg/harness/runtime/planning.go:41-256 | Runtime budget, anchor, planner loop, step and revision budgets, in the code's order. |
| `SessionDriver.Service.PlanSteps` | pkg/harness/runtime/planning.go:139-193 | The planner loop takes the planner's steps up to the cap. |
| `SessionDriver.Service.ResumePendingApproval` | pkg/harness/runtime/approval_flow.go:225-271 | A pending record stops the driver, an approved one resumes its step, anything else is a fault. |
| `SessionDriver.Service.RunTurn` | pkg/harness/runtime/session_driver.go:32-135 | One iteration of the loop is one turn of the state machine. |
| `SessionDriver.Service.RunTurns` | pkg/harness/runtime/session_driver.go:30-136 | The loop itself terminates with a lexicographic measure and ends in a state that turn after turn leads to. |
| `DriverTurns.PlanningLeaves` | pkg/harness/runtime/planning.go:41-256 | Which fault planning ends in, in the code's order, and what it leaves: the first planned steps as the next plan of the session, or the plans as they were. |
| `DriverTurns.WorkingTurn` | pkg/harness/runtime/session_driver.go:57-135 | A turn of a session that awaits nothing: a plan first if there is none, then what is next, as a round if one takes place and else by itself. |
| `DriverTurns.AwaitingTurn` | pkg/harness/runtime/approval_flow.go:247-271 | A turn of a session that awaits an answer: it rests while there is none, resumes an approved one, and faults otherwise. |
| `DriverTurns.RestsIff` | pkg/harness/runtime/session_driver.go:40-135 | **Main.** An open session with a plan rests with its books unchanged if and only if its answer is still out, or nothing is selectable, or the selected step is held back with attempts and time left and no round is run instead. |
| `DriverTurns.FaultsOverBackoffIff` | pkg/harness/runtime/session_driver.go:119-125 | **Main.** A turn faults over a step held back if and only if it resumes an answered step that is; over a selected step it never does. |
| `SessionDriver.Service.RunSession` | pkg/harness/runtime/session_driver.go:30-136 | **Main.** For planners whose plans have distinct ids and name no stored plan, with re-planning bounded, the call terminates; its result is that of some number of turns, and its invocations are paid for by the credit it started with. |
| `Reconcile.VerdictIsAboutLikeness` | pkg/harness/runtime/plan_outcome.go:18-95 | The verdict looks at status, attempts, failure rules and aggregates only, not at backoff times. |
| `Reconcile.ReconciledPhaseAgrees` | pkg/harness/runtime/plan_outcome.go:117-169 | When the transition is reconciled on a step of the latest plan, phase and stored plan status agree: complete with completed, failed with failed, plan with active. |
| `Reconcile.RoundPhaseAgrees` | pkg/harness/runtime/fanout_scheduler.go:458-466 | **Main.** After a fan-out round they always agree. |
| `Reconcile.AgreesAsVerdicts` | pkg/harness/runtime/plan_outcome.go:117-169 | Phase and stored status agree exactly when the latest plan and the step's own plan, each with the step as it ran, come to the same verdict. |
| `Reconcile.AgreementIffLatest` | pkg/harness/runtime/plan_outcome.go:160-168 | **Main.** For a step that names its plan and any number of later plans: phase and the status of its own plan agree after every reconciled run if and only if there is no later plan. |
| `KernelInvariants.RunStepKeeps` | pkg/harness/runtime/runner.go:34-674 | Running a step keeps the invariant, moves records forwards only and invokes a tool only as granted. |
| `KernelInvariants.RoundKeeps` | pkg/harness/runtime/fanout_scheduler.go:103-177 | So does a fan-out round. |
| `KernelInvariants.TurnKeeps` | pkg/harness/runtime/session_driver.go:30-136 | So does a whole turn of the driver. |
| `KernelInvariants.NeverWedgedOnApproval` | pkg/harness/runtime/approval_flow.go:247-271 | From the invariant: the driver never finds its approval missing or unresolved; a pending one stops it, an approved one resumes with allow. |
| `KernelRuns.RespondKeeps` | pkg/harness/runtime/approval_flow.go:19-215 | Answering an approval keeps the invariant and moves the record forwards. |
| `KernelCalls.ResponseLeaves` | pkg/harness/runtime/approval_flow.go:19-215 | An answer takes effect exactly on the awaited pending record, keeps what was answered, and changes session and plans as an approval or a rejection should; otherwise all is as it was. |
| `KernelCalls.ResponseFaults` | pkg/harness/runtime/approval_flow.go:19-33 | Each fault of an answer exactly when it applies. |
| `KernelCalls.ResumptionLeaves` | pkg/harness/runtime/approval_flow.go:225-271 | Resuming runs the record's step on its grant if the awaited record was approved for that step, or changes nothing. |
| `KernelCalls.BlockingLeaves` | pkg/harness/runtime/blocked_runtime_lifecycle.go:31-102 | A session is blocked, by a fresh pending record, unless it is over, awaits an answer or is blocked. |
| `KernelCalls.BlockedAnswerLeaves` | pkg/harness/runtime/blocked_runtime_lifecycle.go:104-168 | The answer stored is the one given, on the pending record that blocks the session and on no other. |
| `KernelCalls.BlockedEndLeaves` | pkg/harness/runtime/blocked_runtime_lifecycle.go:170-251 | Resuming and aborting set the session free and say in the record which it was. |
| `KernelCalls.BlockedFaults` | pkg/harness/runtime/blocked_runtime_lifecycle.go:31-251 | Which fault each of these calls meets. |
| `KernelCalls.AbortLeaves` | pkg/harness/runtime/abort.go:28-278 | **Main.** Aborting ends an open session with what it waited for: the awaited record is closed and its step failed, or else the record that blocks it is aborted, or else the step it was at has failed, in the plan it works on and there alone; a session that is over stays as it is. |
| `KernelCalls.AbortFaults` | pkg/harness/runtime/abort.go:28-278 | An abort is refused exactly when the session ended otherwise, or what it waits for is not on record. |
| `KernelCalls.ActiveFails` | pkg/harness/runtime/abort.go:453-478 | The first step with the active id fails over the abort; all other steps, and all plan statuses, stay. |
| `KernelCalls.InFlightLeaves` | pkg/harness/runtime/recovery.go:22-47 | Marking in flight: the step, the plan it is of, and the clock if it did not run; nothing when out of time. |
| `KernelCalls.InterruptLeaves` | pkg/harness/runtime/recovery.go:57-65 | Marking interrupted: the time, and recovery whatever the phase was. |
| `KernelCalls.NormalizeLeaves` | pkg/harness/runtime/recovery.go:180-248 | A session left in the middle of a step is put to rest at that step, in recovery unless it is over. |
| `KernelCalls.PlanCallLeaves` | pkg/harness/runtime/lifecycle.go:169-226 | A plan handed in becomes the session's next, its steps as given, unless the revisions are used up. |
| `KernelRuns.AbortKeeps` | pkg/harness/runtime/abort.go:28-278 | Aborting keeps the invariant: pending records are rejected, approved ones consumed, the current blocked record aborted. |
| `KernelRuns.BlockedCallsKeep` | pkg/harness/runtime/blocked_runtime_lifecycle.go:31-251 | Creating, answering, resuming and aborting blocked runtimes keep the invariant and never touch a resolved record. |
| `KernelRuns.CallKeeps` | pkg/harness/runtime/runner.go:34-674 | Every call of the kernel keeps the invariant; only calls that run steps invoke tools. |
| `KernelRuns.ReachableInv` | pkg/harness/runtime/runner.go:158-216 | Every state a fresh session reaches by any calls satisfies the invariant. |
| `KernelRuns.OnceMeansOnce` | pkg/harness/runtime/runner.go:572-623 | **Main.** Over whole runs an approval answered "once" backs at most one invocation, one never approved none. |
| `KernelRuns.AskedMeansApproved` | pkg/harness/runtime/runner.go:137-174 | **Main.** In every reachable state a tool the policy asks about runs only on an approved record: the awaited one of this very step, or one answered "always" for the step's own scope. |
| `KernelRuns.ApprovalsFit` | pkg/harness/runtime/approval_flow.go:273-295 | **Main.** Over whole runs: every invocation ever made on an approval was made for the record's own step, or for a step of the record's scope on an "always". |
| `KernelRuns.RecordsMoveForwards` | pkg/harness/approval/store.go:86-115 | Approvals move from pending to rejected, or to approved and then consumed; resumed and aborted blocked records never change again. |
| `KernelRuns.NeverWedged` | pkg/harness/runtime/approval_flow.go:247-271 | **Main.** In every reachable state a set pending approval names an existing record that is pending or approved, so the "not resolved" default is unreachable. |
| `BlockedRuns.BlockedMeans` | pkg/harness/runtime/blocked_runtime_lifecycle.go:53-76 | In every reachable state a blocked session is open, waits for no approval, is not claimable, and names one unresolved record of its own. |
| `BlockedRuns.CallNames` | pkg/harness/runtime/recovery.go:14-65 | After one call the session names a record because the call created it, or because it did before, and is then blocked as before unless the call marked it in flight or interrupted. |
| `BlockedRuns.AnswerableExactlyWhen` | pkg/harness/runtime/recovery.go:14-65 | **Main.** Over every run from a new session: the record a session names can be resumed and aborted, and answered if pending, if and only if no successful call marked the session in flight or interrupted while that record blocked it. |
| `BlockedRuns.StrandedUntilAborted` | pkg/harness/runtime/recovery.go:14-65 | After such a call no calls short of an abort answer, resume or abort the record, or create another. |
| `KernelRuns.CallStaysReady` | pkg/harness/runtime/approval_flow.go:19-215 | Every call, with any step run from outside, be it one of another session's plan, leaves all stored plans such that the driver can go on, if what becomes a plan has distinct ids and names no stored plan. |
| `KernelRuns.DriverEndsEverywhere` | pkg/harness/runtime/session_driver.go:30-136 | **Main.** So, beside any well stored plans of others, the driver ends from every state that calls of that kind can reach. |
| `ProgramTrack.SelectsFront` | pkg/harness/runtime/session_driver.go:146-227 | On the track the selector takes exactly the step in front. |
| `ProgramTrack.RoundFollows` | pkg/harness/runtime/fanout_scheduler.go:103-177 | A round whose members abort on failure completes the whole aggregate, or ends the session. |
| `ProgramTrack.HaltedStays` | pkg/harness/runtime/session_driver.go:46-56 | A session that was aborted, or failed with an aborting step, stays over and invokes nothing. |
| `ProgramTrack.CallFollows` | pkg/harness/runtime/session_driver.go:30-136 | Every admitted call, aborts, interruptions and task attachments among them, stays on the track or ends the session for good, and invokes no tool but of steps that may run while the front is where it is. |
| `ProgramRun.ReachableOnTrack` | pkg/harness/runtime/session_driver.go:146-227 | Every reachable state of a program run in line: over for good, or a completed prefix, one step in the works, the rest untouched. |
| `ProgramRun.DependenciesCompleteFirst` | pkg/harness/runtime/program.go:79-107 | **Main.** End to end, in a store with any other plans: when a tool runs for a node, every step of every node it depends on is completed; concurrent nodes that abort on failure included. |
| `ProgramLimits.CompilesInLineIff` | pkg/harness/runtime/program.go:110-205 | **Main.** Given distinct step ids, a program compiles to a plan that is run in line, under whatever plan id it is stored, if and only if no node continues or replans, and every node whose targets run together aborts on failure. |
| `ProgramLimits.InterruptKeepsOrderIff` | pkg/harness/runtime/recovery.go:57-65 | **Main.** Interrupting a session that is over, with its plan in line, a front that runs by itself and something behind it: whatever is answered next, only the step in front runs, if and only if that step has not failed with the strategy to abort. |
| `ProgramLimits.AttachKeepsOrderIff` | pkg/harness/runtime/lifecycle.go:94-135 | **Main.** Attaching a task to such a session: the same, on the same condition. |
| `ProgramLimits.InFlightKeepsOrderIff` | pkg/harness/runtime/recovery.go:22-47 | **Main.** Marking a step of an open session in flight that awaits nothing, with its plan in line and a front that runs by itself: whatever is answered next, only the step in front runs, if and only if it is no later step that was marked. |
| `ProgramLimits.ConcurrentKeepsOrderIff` | pkg/harness/runtime/session_driver.go:146-163 | **Main.** For every plan with two members of an aggregate that run together in front: what comes behind waits for the whole aggregate in this turn and the next, on all answers, if and only if its strategy is to abort. |
| `SessionStore.InsertOrdered` | pkg/harness/session/store.go:102-111 | Keeps sessions ordered: an earlier one was created no later, and of two of one time the one whose id is the lesser string comes first. |
| `SessionStore.BeforeMeans` | pkg/harness/session/store.go:102-111 | What the order is: the creation time, and of two of one time the lesser id. |
| `SessionStore.OrderSessions` | pkg/harness/session/store.go:102-111 | The ordered list holds exactly the stored sessions. |
| `SessionStore.FirstClaimableIsUnique` | pkg/harness/session/store.go:98-127 | Which session is claimed does not depend on the order the map is walked in. |
| `SessionStore.MemoryStore.Update` | pkg/harness/session/store.go:67-86 | Compare-and-set on the version; both errors exactly when they apply, and then nothing changes. |
| `SessionStore.MemoryStore.ClaimNext` | pkg/harness/session/store.go:98-127 | **Main.** The claimed session is not leased, and at rest and not over, or left in the middle of a step when that is asked for; every other such session was created no earlier, and if at the same time has the greater id. None is claimed exactly when there is none. It is leased to the claimer, and nothing else changes. |
| `SessionStore.OldestTaken` | pkg/harness/session/store.go:98-127 | The first claimable session is the oldest of those that may be taken. |
| `SessionStore.ClaimedMeans` | pkg/harness/session/store.go:112-124 | A claimed session is the claimer's until the lease expires and nobody else's, cannot be claimed before then, and is otherwise the same, one version on. |
| `SessionStore.RenewedMeans` | pkg/harness/session/store.go:129-146 | A renewal moves the end of the holder's lease and the heartbeat, and nothing else. |
| `SessionStore.ReleasedMeans` | pkg/harness/session/store.go:148-166 | A released session is nobody's, and can be claimed if its state allows it. |
| `SessionStore.MemoryStore.RenewLease` | pkg/harness/session/store.go:129-146 | Only the live holder renews; only expiry, heartbeat, version and update time change. |
| `SessionStore.MemoryStore.ReleaseLease` | pkg/harness/session/store.go:148-166 | Only the live holder releases. |
| `SessionUpdate.MergeKeepsLease` | pkg/harness/runtime/session_update.go:56-77 | A merge under its own lease keeps all lease fields and the later heartbeat. |
| `SessionUpdate.MergeMeans` | pkg/harness/runtime/session_update.go:56-77 | A merge, field by field, under any lease or none: what the session is about is the writer's, its creation the record's, the clock's start the writer's if it has one, the lease the record's unless another is named, the heartbeat the later under one lease. |
| `SessionUpdate.ReplacedMeans` | pkg/harness/runtime/session_update.go:26-77 | A successful update replaced a record that still carried the lease, one version on, with lease, claim time, expiry and time of creation untouched, the later heartbeat, and what the session is about as the writer had it: phase, execution, step in flight, interruption, start of the clock. |
| `SessionUpdate.Perform` | pkg/harness/session/store.go:67-166 | Whatever other workers do, records are only replaced by newer versions. |
| `SessionUpdate.UpdateSessionWithRetry` | pkg/harness/runtime/session_update.go:26-54 | **Main.** Under arbitrary interference: success replaces exactly the record of that moment, so no renewal is lost; a conflict is reported only after four interfering writes. |
| `LeaseProtocol.LeaseChangesOnlyBy` | pkg/harness/session/store.go:98-166 | Lease fields change only by a claim over a dead lease, by the live holder renewing or releasing, or by an abort. |
| `LeaseProtocol.ClaimLeaves` | pkg/harness/session/store.go:98-127 | A claim takes a session that may be taken, for the time asked for, changes no other and begins a tenure. |
| `LeaseProtocol.RenewalLeaves` | pkg/harness/session/store.go:129-146 | A renewal moves the end of a lease held by its reading, and any other does nothing. |
| `LeaseProtocol.ReleaseLeaves` | pkg/harness/session/store.go:148-166 | A release gives up a lease held by its reading, and any other does nothing. |
| `LeaseProtocol.WriteLeaves` | pkg/harness/runtime/session_update.go:11-54 | A write from a snapshot takes effect exactly while the snapshot is up to date, stores what the writer had, and an abort's gives up the lease. |
| `LeaseProtocol.WritesKeepLease` | pkg/harness/runtime/session_update.go:15-77 | Plain and lease-checked writes from snapshots never change a lease. |
| `LeaseProtocol.CasReplacesSnapshot` | pkg/harness/session/store.go:67-86 | A compare-and-set that succeeds replaces the very record its snapshot was taken of. |
| `LeaseProtocol.MoveKeeps` | pkg/harness/session/store.go:37-166 | Every move of every worker keeps the protocol's invariant. |
| `LeaseProtocol.ClaimsNeverOverlap` | pkg/harness/session/store.go:98-166 | **Main.** In every interleaved run no two claims of one session are in force at one time, even with stale clock readings. |
| `LeaseProtocol.RevivedExactlyBy` | pkg/harness/runtime/coordination.go:24-71 | **Main.** A dead lease becomes live again if and only if its holder's renewal was read before the expiry and stored after it. |
| `LeaseProtocol.DeadStaysDead` | pkg/harness/session/store.go:129-146 | With renewals stored at the moment of their reading, a dead lease stays dead for the rest of the run. |
| `LeaseProtocol.StaleRenewalRevives` | pkg/harness/runtime/coordination.go:28-36 | A run in which a stale renewal revives a dead lease. |
| `FanoutScheduler.FireKeeps` | pkg/harness/runtime/fanout_scheduler.go:260-278 | Every event of launcher or goroutine keeps semaphore, wait group, stages and slots in agreement and uses up one of the events to come. |
| `FanoutScheduler.NoDeadlock` | pkg/harness/runtime/fanout_scheduler.go:260-278 | Until the launcher has joined, some event is enabled. |
| `FanoutScheduler.ConcurrencyBounded` | pkg/harness/runtime/fanout_scheduler.go:262-270 | Under every schedule at most maxConcurrency goroutines are in flight and no slot is written twice. |
| `FanoutScheduler.ResultIsMap` | pkg/harness/runtime/fanout_scheduler.go:260-278 | **Main.** When the launcher joins, every slot was written once and holds its own step's outcome. |
| `FanoutScheduler.EveryScheduleEnds` | pkg/harness/runtime/fanout_scheduler.go:260-278 | **Main.** Every schedule joins after exactly 5n+1 events, and a shorter one can go on. |
| `ApprovalSaga.MarkShows` | pkg/harness/runtime/approval_flow.go:407-414 | When the mark of a failed attempt write can be seen: exactly if the map is shared and did not carry that reply. |
| `ApprovalSaga.FinalizedMeans` | pkg/harness/runtime/approval_flow.go:400-415 | Finalising changes the last attempt that waits for the approval and no other: failed, with its step and the reply, its end kept if it had one. |
| `ApprovalSaga.PlanUndone` | pkg/harness/runtime/rollback.go:81-87 | Storing a step and then the record's step restores the steps of every plan if and only if the plan it names does not know the id or holds that very step; a step without an id is not taken back at all. |
| `ApprovalSaga.ResponseService.FindLatestBlockedAttempt` | pkg/harness/runtime/approval_flow.go:417-432 | The last attempt blocked on the approval. |
| `ApprovalSaga.ResponseService.MarkReply` | pkg/harness/runtime/approval_flow.go:405-413 | The reply is written into the attempt's own map, which the stored record shares. |
| `ApprovalSaga.ResponseService.FinalizeBlockedAttempt` | pkg/harness/runtime/approval_flow.go:400-415 | The attempt is finalised; if the write fails only the mark stays. |
| `ApprovalSaga.ResponseService.Approve` | pkg/harness/runtime/approval_flow.go:100-206 | Approving is all-or-nothing over record and session. |
| `ApprovalSaga.ResponseService.AnswerRecordAndAttempt` | pkg/harness/runtime/approval_flow.go:154-165 | Record and attempt, or neither, up to the mark. |
| `ApprovalSaga.ResponseService.AnswerPlanTaskAndSession` | pkg/harness/runtime/approval_flow.go:166-204 | Plan, task and session are written, or task and session are as before and the plan holds the record's step again. |
| `ApprovalSaga.ResponseService.UndoAnswer` | pkg/harness/runtime/rollback.go:47-65 | Restoring attempt and record gives back exactly what there was. |
| `ApprovalSaga.ResponseService.RejectApproval` | pkg/harness/runtime/approval_flow.go:145-206 | **Main.** A rejection goes through unless a write it reaches fails; after any single failing write approval, attempt, plan steps, task and session read as before if and only if neither the attempt's shared map shows the reply nor the plan differed from the record's step. |
| `ApprovalSaga.ResponseService.CheckResponse` | pkg/harness/runtime/approval_flow.go:20-33 | A response is declined for an unknown record, one that is not awaited or not pending, and an invalid reply, in that order. |
| `ApprovalSaga.ResponseService.RespondApproval` | pkg/harness/runtime/approval_flow.go:19-215 | **Main.** Declined if and only if the kernel declines, and then unchanged; a write fault if and only if a failing write is reached; otherwise the kernel's answer, with the waiting attempt failed and marked and the task failed if it was a rejection, and both as they were if not; a faulted response is undone exactly unless a rejection could not be. |
| `Replay.BuildSessionProjection` | pkg/harness/replay/replay.go:99-129 | Events are filed under the last cycle with their id, the rest stay unmatched, in order. |
| `Replay.ProjectionsAgreeIffDistinct` | pkg/harness/replay/replay.go:99-146 | **Main.** The indexed session projection agrees with the single-cycle projection on every cycle for all events exactly when no cycle id occurs twice. |
| `Replay.EventsArePartitioned` | pkg/harness/replay/replay.go:120-126 | Every event is with one cycle or unmatched, once. |
| `Replay.CycleEventsInOrder` | pkg/harness/replay/replay.go:131-146 | A cycle's projection is its events at all their places in the session's order, in that order. |
| `Replay.UnmatchedInOrder` | pkg/harness/replay/replay.go:120-126 | Unmatched are exactly the events of no cycle or of an unlisted one, in the session's order. |
| `Replay.TargetSlicesFromCycle` | pkg/harness/execution/projection.go:68-115 | One slice per target key by first appearance; each of its five lists holds exactly the cycle's facts of that kind and target, in order. |
| `Replay.FactsInOrder` | pkg/harness/execution/projection.go:68-115 | What a slice lists of one kind is the target's facts at all their places in the cycle's list, in that order. |
| `Replay.TargetsInOrder` | pkg/harness/execution/projection.go:68-115 | The slices come in the order in which their targets are first named. |
| `Replay.FactsHaveOneSlice` | pkg/harness/execution/projection.go:68-115 | Every targeted fact is in the slice of its target, in the list of its kind as often as in the cycle's, and in that list of no other slice. |
| `Replay.KeyTellsTargets` | pkg/harness/execution/projection.go:71-72 | The joined key tells targets apart as long as target ids hold no zero byte. |

## Left out

- SQL repositories, HTTP and WebSocket adapters, CLI, configuration, modules, metrics, traces and audit payloads: wiring and I/O around the kernel.
- Store failures inside driver steps and calls other than answering an approval: calls are atomic there, as they are with a transaction runner.
- AbortSession without a runner when a write fails part-way: its first compound helper is not undone by the code itself.
- Store failures while undoing an approval answer: restores are taken to succeed.
- Planners that attach programs to steps, bindings between steps, verify specifications and timestamps of steps: they do not decide control here.
- What other sessions' own calls do to the plan store meanwhile: their plans are there, and the session's calls read and write them, but nobody else does.
- Plans of other sessions as stored without identities: every read adds them, so they are modelled as read.
- Injectivity of compiled step ids: ids are joined with "__", so distinctness is a hypothesis where it matters.
- Metadata a program author puts on a node: only the entries the compiler sets are kept.
- MaxSteps below zero: the planner's slice allocation would panic; the model plans no steps.
- Context compaction and assembly: best effort, without effect on control state.
- The comparator of audit events with mixed sequence numbers: it is not transitive, so ordered events are an input.
- Replay.TargetSlicesFromCycle: the interactive runtimes of a slice, which are read off its handles.
- Library sorting: modelled as insertion into an ordered list, with the same order and ties.
- SessionUpdate.UpdateSessionWithRetry: other workers create no sessions meanwhile, which cannot touch this record.
- ProgramRun.DependenciesCompleteFirst: for programs run in line, in sessions that stay with that plan. Not among its calls: plans and steps from outside, which bring their own order; interrupting a session that was aborted or failed with an aborting step, or attaching a task to it; marking a step in flight before all steps in front of it are completed. `ProgramLimits.InterruptKeepsOrderIff`, `ProgramLimits.AttachKeepsOrderIff` and `ProgramLimits.InFlightKeepsOrderIff` show why.
- ProgramLimits.ConcurrentKeepsOrderIff: two turns of the driver; `ProgramRun.DependenciesCompleteFirst` covers whole runs for the strategies that keep the order.
- ApprovalSaga.ResponseService.RejectApproval: one failing write at a time; version counters, update times and the recomputed plan status are not compared.
- BlockedRuns.BlockedMeans: other records that were orphaned by an abort or an interruption may stay unresolved beside the one named.

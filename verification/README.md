# Model of the routing runtime

This project models the core of a runtime that routes work to external coding agents, and proves what
that core is meant to guarantee. The model covers the following parts.

- **The workflow validator.** JSON documents are normalised (`Documents`, `Names`, `Validation`), with the
  facts about normal forms in `Normalisation`, `NormalForm` and `DocumentOrder`. `CycleFinder` has the
  three-colour search over an explicit stack. `Meaning` says field by field what a document means, without
  the normalisers, and `Acceptance` puts it all together.
- **The workflow scheduler.** `Scheduler` is a step system: one `Move` for each critical section of the main
  loop and of the workers, for each read or write of a shared flag, and for each event from outside. A run is
  any interleaving of moves. `SchedulerProcess` is the object that changes its fields in place; each method
  has exactly the effect of one move. `SchedulerDriver` drives that object in any order of steps and events and
  shows that its states are those of a run, so what is proved about runs is about it. `SchedulerInvariant`,
  `SchedulerSteps` and `SchedulerRuns` carry the invariant to every point of every run, and
  `SchedulerTheorems`, `Termination`, `ScheduleIndependence` and `RetryLoop` draw the main results from it.
  `DependencyStates` and `FailFastOrder` are about dependency marking, `Prompts` about context handoff.
- **State files over several process lives.** `Controller` has the controller's writes and the external
  cancel, `Persistence` has lives of a workflow: runs, crashes at any point, cancels and resumes.
  `WorkflowLife` has the calls that run, resume and cancel a workflow, each of which goes on with its life.
- **One dispatch.** `Dispatch` has the lifecycle table and the control flow, `Receipts` the printer and the
  parser of receipts, `RoutingArgs` the way of an accepted write task into an isolated workspace, and
  `WrittenOptions` the argument lists as they are written.
- **Two small algorithms.** `Segments` and `Tripwire` have the shell command segmenter and the search for a
  shim invocation, `Quoting` and `WrittenTokens` what they mean for commands as they are written, and
  `Selection` the cursor of the provider picker.

`Workflows`, `RunState` and `Text` hold what the parts share. The validator and the scheduler use the same
`Workflow` type, so every scheduler theorem is about documents that the validator accepts.

The chain of the main results: the cycle search is right (`FindCycle`, `SearchDecides`), so accepted
workflows are acyclic (`ValidateWorkflow`), so a quiet scheduler has nothing left to do
(`QuietMeansTerminal`), so no run gets stuck (`NeverStuck`) and every run ends (`RunTerminates`), with a
result that does not depend on the schedule (`SchedulesAgree`, and from the answers of single attempts
`SameAnswersAgree`).

Everything that a process cannot decide by itself is a parameter of a move or of a method: what a runner
call returns, the exit codes of verification commands, the contents of files, the order in which futures
complete, and where a dispatch meets an exception.

## Where code, documentation and expectation differ

The model follows the code. Where the code does not meet a promise on all inputs, the exact condition is
proved.

- A persisted cancellation is sticky. Resume and the start of a run reset the flag in memory, but the write
  that follows takes it back from the file (`Controller.StateController.Initialize`,
  `Controller.CancellationIsSticky`). A resumed run then starts nothing and ends as cancelled
  (`SchedulerTheorems.CancelledStartsNothing`), although docs/workflows.md:98-100 has incomplete tasks receive
  new attempts. The exact condition for a run to start anything is `SchedulerTheorems.StartsSomethingIff`.
- A task that a crash left running is made cancelled by resume, not pending, and is not submitted in that
  run (`Persistence.ResumeEligibility`). The next resume makes it pending.
- Under fail-fast, whether a stopped task is called blocked or skipped depends on the order of the tasks
  (`FailFastOrder.OrderMattersIff`), and the labels of docs/workflows.md:66 come out under the condition of
  `FailFastOrder.DocumentedLabelsIff`. Which tasks are stopped does not depend on the order.
- A provider argument that begins with `--routing-` is not forwarded. Exact forwarding holds if and only if
  there is none (`RoutingArgs.StrippingIsExact`).
- A registry that declares a model with an empty name would break the fixed point of normalisation
  (`NormalForm.RouteAgain`). The registry's own validation excludes it.
- A negative exit code would not survive the receipt round trip (`Receipts.EmittedPairParses`). A dispatch
  reports none.
- Only a receipt that the shim printed is meant to be authoritative (scripts/parse-shim-result.py:4-6). The
  parser takes the line before the sentinel. When the shim prints no receipt, as it does unless receipts are
  on, that is the last line of the child (`Dispatch.LookalikeAccepted`). The exact condition is
  `Dispatch.AcceptedIsPrintedIff`.
- The header of a context section compares the size of the file with the budget, but a diffstat is rendered
  anew after it has been read. Its "truncated" can be wrong both ways
  (`Prompts.WholeDiffstatCalledTruncated`); docs/workflows.md:78 makes no exception. The exact condition is
  `Prompts.HeaderRightIff`.
- Some failed dispatches leave a finished ledger record without a started one
  (`Dispatch.FinishedWithoutStart`), and the outcome in the ledger can differ from the one in the result
  document (`Dispatch.OutcomesAgree`).
- `true` and `1.0` pass as schema version 1, because the code compares by value.

## Model

| member | source | states |
|---|---|---|
| `CycleFinder.SearchFrom` | runtime/model_routing/workflow.py:102-128 | The explicit-stack search from one start node ends. A reported path is a closed walk along dependency edges, and without a cycle every node it coloured is finished, with a rank below all its dependants. The gray child is always on the path, so the `[child, node, child]` fallback is never taken |
| `CycleFinder.FindCycle` | runtime/model_routing/workflow.py:94-129 | The whole search: a reported path is a cycle (each consecutive pair an edge, first equal to last); "no cycle" comes with a topological rank of the entire graph |
| `CycleFinder.SearchDecides` | runtime/model_routing/workflow.py:94-129 | With all references known the answer is right both ways: a cycle is reported if and only if one exists |
| `CycleFinder.GrayChildClosesCycle` | runtime/model_routing/workflow.py:112-118 | The path from a gray child to the current node, closed by the child, is a cycle |
| `CycleFinder.RankExcludesCycle` | runtime/model_routing/workflow.py:94-129 | A graph with a topological rank has no cycle |
| `CycleFinder.EnterChild` | runtime/model_routing/workflow.py:119-124 | Entering a white child keeps the three-colour invariant of colours, path, stack and ranks, and lowers the work left |
| `CycleFinder.LeaveNode` | runtime/model_routing/workflow.py:125-128 | Leaving a node whose children are all finished gives it a rank above theirs and keeps the invariant |
| `Acceptance.ValidateWorkflow` | runtime/model_routing/workflow.py:458-556 | The validator returns a workflow with warnings if and only if the document says that, field by field, in the relation `Meaning.DocumentOf`, and has no dependency cycle; and everything accepted is fit for the scheduler (well formed and acyclic) |
| `Acceptance.NormalisedIsWellFormed` | runtime/model_routing/workflow.py:458-556 | A normalised document has at least one task, positive concurrency limits, dependencies that are distinct names of other tasks, context selections from direct dependencies only, positive timeouts, at least one attempt and no write task in a shared workspace |
| `Acceptance.TaskIsAccepted` | runtime/model_routing/workflow.py:307-395 | The same for one task |
| `Acceptance.CollectDeps` | runtime/model_routing/workflow.py:345-363 | The loop over `dependsOn` with its set of seen names, then sorted: the same answer and the same first error as the specification |
| `Acceptance.FindModel` | runtime/model_routing/workflow.py:46-71 | The loop over models and aliases finds a model if and only if the name is known, and then the exact name if it is declared, otherwise the first model that owns it as an alias up to case (`Meaning.StandsFor`) |
| `Meaning.DocumentIff` | runtime/model_routing/workflow.py:458-556 | A document normalises to a workflow with warnings if and only if they say what it says: name, defaults, the sorted task names, each task by `TaskOf`, and the warnings task by task |
| `Meaning.TaskIff` | runtime/model_routing/workflow.py:307-395 | A task normalises to t if and only if t says field by field what the task says: route, mode, prompt, sorted distinct dependencies, selections, timeout and workspace as written or by default, retries, and every verification command |
| `Meaning.DefaultsIff` | runtime/model_routing/workflow.py:398-455 | The defaults likewise: 2 tasks at a time, 1140 seconds, workspace auto and fail-fast where nothing is written |
| `Meaning.RouteIff` | runtime/model_routing/workflow.py:149-218 | A route is accepted if and only if its provider is known, its model stands for a declared one (or is taken as it is, with a warning), and its effort is one that the model takes |
| `Meaning.ResolveMeans` | runtime/model_routing/workflow.py:46-71 | A name is found if and only if it is declared or an alias, and stands for the exact name, otherwise for the first model with that alias |
| `Meaning.PromptIff` | runtime/model_routing/workflow.py:132-146 | A prompt is accepted if and only if it is an object with exactly one member, a file that passes the file checks or a non-empty text |
| `Meaning.DependsOnIff` | runtime/model_routing/workflow.py:345-363 | The dependencies are the entries, distinct names of other tasks, in ascending order; nothing written means none |
| `Meaning.ContextIff` | runtime/model_routing/workflow.py:270-304 | The context selections are the entries in order, each of a direct dependency, with its artifact and its limit |
| `Meaning.RetryIff` | runtime/model_routing/workflow.py:221-249 | Retries: as written, otherwise one attempt, no backoff and no trigger |
| `Meaning.VerifyIff` | runtime/model_routing/workflow.py:252-267 | Verification: the commands as written, word by word, and none if nothing is written |
| `Meaning.ProviderLimitsIff` | runtime/model_routing/workflow.py:419-435 | The limits are those written last for each provider, and no others |
| `Normalisation.DepsIff` | runtime/model_routing/workflow.py:345-363 | `dependsOn` is accepted with result r if and only if its entries are, in order, the distinct non-empty names in r, each of another task of the workflow |
| `Normalisation.TriggersIff` | runtime/model_routing/workflow.py:236-248 | `retry.on` is accepted if and only if it lists distinct known triggers |
| `Normalisation.CommandsIff` | runtime/model_routing/workflow.py:252-267 | `verify` is accepted if and only if each entry is a non-empty list of non-empty strings |
| `Normalisation.SelectionsIff` | runtime/model_routing/workflow.py:270-304 | `contextFrom` is accepted if and only if each entry is, and the result lists them in order |
| `Normalisation.LimitsIff` | runtime/model_routing/workflow.py:419-435 | `providerConcurrency` is accepted if and only if it gives known providers positive integer limits |
| `NormalForm.ResolveAgain` | runtime/model_routing/workflow.py:46-71 | Resolving an alias is idempotent, and what it finds is declared |
| `NormalForm.RouteAgain` | runtime/model_routing/workflow.py:149-218 | A normalised route normalises to itself, warnings included, if and only if its model is not the empty string |
| `NormalForm.RouteModelNamed` | runtime/model_routing/workflow.py:149-218 | With a registry that declares no empty model name, no normalised route has one |
| `NormalForm.TaskAgain` | runtime/model_routing/workflow.py:307-395 | A normalised task normalises to itself with the same warnings, whatever the defaults are by then |
| `NormalForm.DefaultsAgain` | runtime/model_routing/workflow.py:398-455 | Normalised defaults normalise to themselves, in whatever order the provider limits are written |
| `NormalForm.NormalFormIsFixed` | runtime/model_routing/workflow.py:458-556 | Validating the normal form of an accepted document again gives the same document and the same warnings |
| `DocumentOrder.DepsPermuted` | runtime/model_routing/workflow.py:345-363 | Permuting `dependsOn` permutes what is collected, so the sorted result is the same |
| `DocumentOrder.DocumentOrderIrrelevant` | runtime/model_routing/workflow.py:458-556 | Listing the tasks, the members of a task or the entries of `dependsOn` in another order changes neither the normal form nor the warnings |
| `Names.SortSpec` | runtime/model_routing/workflow.py:363-363 | Sorting gives an ascending permutation |
| `Names.SortCanonical` | runtime/model_routing/workflow.py:363-363 | Sorting forgets the input order and is idempotent |
| `Names.StringLeIff` | runtime/model_routing/workflow.py:363-363 | The order of names: a prefix comes first, otherwise the first difference decides |
| `DependencyStates.MarkDependencyStates` | runtime/model_routing/scheduler.py:538-556 | The in-place fixpoint loop ends and leaves exactly the result of the marking function, touching nothing but the task records |
| `DependencyStates.VisitTask` | runtime/model_routing/scheduler.py:542-556 | One visit has the effect of the specification and reports a change exactly when there is one |
| `DependencyStates.PassTerminates` | runtime/model_routing/scheduler.py:538-556 | A pass that changes anything lowers a measure of the labels left to give |
| `DependencyStates.MarkComputesLabels` | runtime/model_routing/scheduler.py:538-556 | Without the flag the result is the declarative closure: an open task is blocked exactly if a dependency path through open tasks reaches a failed one, ready exactly if all dependencies succeeded, and everything else is unchanged |
| `DependencyStates.FailFastStops` | runtime/model_routing/scheduler.py:547-552 | With the flag no task stays open; dependants of failed tasks are blocked, tasks whose dependencies succeeded are skipped, and a blocked label has a failed dependency behind it |
| `DependencyStates.MarkEffect` | runtime/model_routing/scheduler.py:538-556 | With or without the flag: attempts are kept, settled tasks are not touched, a task is ready afterwards only if it was or all its dependencies succeeded |
| `DependencyStates.PendingWaits` | runtime/model_routing/scheduler.py:538-556 | A task still pending after marking waits for a dependency that has not settled |
| `DependencyStates.OrderDoesNotMatter` | runtime/model_routing/scheduler.py:542-556 | The iteration order never changes the result without the flag, and with it never changes which tasks are stopped |
| `FailFastOrder.FailFastLabels` | runtime/model_routing/scheduler.py:547-552 | With the flag, exactly: an open task is blocked if a dependency had failed or is open and comes earlier in the order, and skipped otherwise |
| `FailFastOrder.MarkIsOnePass` | runtime/model_routing/scheduler.py:538-556 | With the flag the first pass already gives the final result |
| `FailFastOrder.OrderMattersIff` | runtime/model_routing/scheduler.py:547-552 | With the flag the labels are the same for all task orders if and only if no open task without a failed dependency depends on an open task |
| `FailFastOrder.TwoOrders` | runtime/model_routing/scheduler.py:547-552 | Such a task is skipped in one order and blocked in another |
| `FailFastOrder.DocumentedLabelsIff` | docs/workflows.md:66-66 | The documented labels (direct dependants of a failed task blocked, the others skipped) come out if and only if no open task without a failed dependency stands after an open dependency in the order |
| `Prompts.ArtifactPayload` | runtime/model_routing/scheduler.py:342-377 | A payload never exceeds the maximum it is given, and it is refused for want of attempts exactly if there are none |
| `Prompts.SectionIsHonest` | runtime/model_routing/scheduler.py:393-406 | For every artifact the header states the size of the file of the latest attempt and says "truncated" exactly when that exceeds the budget. Except for a diffstat the body is a prefix of the file, missing something exactly when the header says so |
| `Prompts.HeaderRightIff` | docs/workflows.md:78-78 | The documented flag, for all five artifacts: the header says "truncated" exactly when something is missing, if and only if, for a diffstat, a file within the budget is not rendered beyond it and a file that is cut does not still parse and get rendered within it |
| `Prompts.WholeDiffstatCalledTruncated` | runtime/model_routing/scheduler.py:371-376 | A file on which the flag is wrong: with a budget of one byte less than a changeset that ends in a newline, the whole diffstat is delivered and called truncated |
| `Prompts.HeaderLines` | runtime/model_routing/scheduler.py:400-405 | Read line by line, the header names task, provider, model, status, artifact, size and the flag as `true` or `false`, in that order |
| `Prompts.PromptLayout` | runtime/model_routing/scheduler.py:380-407 | A composed prompt is the snapshot, then header, body and footer of the section of each selection, in order |
| `Prompts.NoAttemptsMeansNone` | runtime/model_routing/scheduler.py:342-377 | Composing fails for want of attempts only if a selected task has none |
| `Prompts.PromptBounded` | runtime/model_routing/scheduler.py:380-407 | Every selected body is at most min(maxBytes, 1 MiB), which bounds the composed prompt |
| `Prompts.ComposePrompt` | runtime/model_routing/scheduler.py:380-407 | The composing loop gives the snapshot followed by the sections in order, or the first error |
| `SchedulerProcess.Process.constructor` | runtime/model_routing/scheduler.py:584-597 | Entering the state machine with the lease held leads to the initial state of the step system |
| `SchedulerProcess.Process.Poll` | runtime/model_routing/scheduler.py:600-601 | A recorded cancellation in memory sets the event; the new state is the one of the poll step |
| `SchedulerProcess.Process.MarkAndList` | runtime/model_routing/scheduler.py:602-605 | Marking and the list of ready tasks without a future, in task order |
| `SchedulerProcess.Process.SubmitNext` | runtime/model_routing/scheduler.py:606-617 | One turn of the submission loop: stop on cancellation or a full pool, pass over a provider at its limit, otherwise submit and count |
| `SchedulerProcess.Process.CloseSubmission` | runtime/model_routing/scheduler.py:618-624 | With nothing in flight the loop ends, or fails for lack of progress; otherwise it waits |
| `SchedulerProcess.Process.CollectCompleted` | runtime/model_routing/scheduler.py:624-625 | The completed futures are taken up in the order in which they are processed |
| `SchedulerProcess.Process.CompleteNext` | runtime/model_routing/scheduler.py:625-641 | A finished future is removed and counted down, its result (or failure, if it raised) is recorded, and the fail-fast flag follows the policy |
| `SchedulerProcess.Process.Finish` | runtime/model_routing/scheduler.py:644-663 | After the loop: on cancellation everything unfinished is cancelled; the status is cancelled if a cancellation came, succeeded if every task is succeeded or verified, failed otherwise, and all is written |
| `SchedulerProcess.Process.RequestCancel` | runtime/model_routing/scheduler.py:572-575 | The signal handler sets the event and nothing else |
| `SchedulerProcess.Process.CancelFromOutside` | runtime/model_routing/scheduler.py:841-850 | A cancel from another process reaches the file and not the memory |
| `SchedulerProcess.Process.BeginTask` | runtime/model_routing/scheduler.py:480-486 | The worker composes its prompt and fixes its first attempt number, or raises |
| `SchedulerProcess.Process.StartAttempt` | runtime/model_routing/scheduler.py:486-500 | An attempt is appended, the task is running, and both are on file |
| `SchedulerProcess.Process.CheckCancel` | runtime/model_routing/scheduler.py:501-507 | A set event turns the attempt into a cancelled one with exit code 130 |
| `SchedulerProcess.Process.ReceiveAnswer` | runtime/model_routing/scheduler.py:504-507 | The runner's outcome is kept for the record, or the worker raises with it |
| `SchedulerProcess.Process.ReportAttempt` | runtime/model_routing/scheduler.py:509-521 | The outcome is recorded in the last attempt and on file |
| `SchedulerProcess.Process.JudgeAttempt` | runtime/model_routing/scheduler.py:522-533 | Cancellation first, then verification of a success, then retry or failure |
| `SchedulerProcess.Process.WakeUp` | runtime/model_routing/scheduler.py:534-535 | The backoff ends in cancellation or in the next attempt |
| `SchedulerProcess.DecideStatus` | runtime/model_routing/scheduler.py:644-652 | Cancelled with everything unfinished cancelled, if a cancellation came; otherwise succeeded exactly if every task is succeeded or verified, and failed if not |
| `SchedulerProcess.CancelLeft` | runtime/model_routing/scheduler.py:646-648 | Exactly the pending, ready and running records become cancelled |
| `SchedulerProcess.RunVerification` | runtime/model_routing/scheduler.py:410-460 | The loop over the commands: succeeded if there is none, verified if all exit with 0, failed otherwise |
| `SchedulerSteps.KeepsInv` | runtime/model_routing/scheduler.py:559-664 | Every step of main loop, workers, signals and external cancels keeps the scheduler invariant |
| `SchedulerSteps.InitialInv` | runtime/model_routing/scheduler.py:584-597 | The initial state has it, for every task map without running or ready tasks |
| `SchedulerSteps.IdleSubmits` | runtime/model_routing/scheduler.py:606-617 | With nothing in flight and no cancellation the first ready task is always submitted |
| `Scheduler.ReadyTasksSpec` | runtime/model_routing/scheduler.py:604-605 | The submission list has exactly the ready tasks without a future, each once |
| `Scheduler.ReadyTasksInOrder` | runtime/model_routing/scheduler.py:604-605 | It keeps the task order |
| `Scheduler.CompleteEffect` | runtime/model_routing/scheduler.py:625-641 | The whole state after a completion: the record, the counters, the fail-fast flag by the four failing states and the policy, the file and where the loop goes on |
| `Scheduler.FinishEffect` | runtime/model_routing/scheduler.py:644-663 | The whole state after the last write: exactly the records that are not terminal are cancelled, and only after a cancellation; status, flag and file |
| `SchedulerSteps.QuietMeansTerminal` | runtime/model_routing/scheduler.py:618-623 | In an acyclic workflow, when nothing is ready, submitted or in flight, every task is terminal |
| `SchedulerRuns.RunInv` | runtime/model_routing/scheduler.py:598-664 | The invariant holds at every point of every run |
| `SchedulerRuns.RunMonotone` | runtime/model_routing/scheduler.py:598-664 | Along a run successful records never change, taken tasks stay taken, attempts only grow, and flags once set stay set |
| `SchedulerRuns.SubmittedOnce` | runtime/model_routing/scheduler.py:604-616 | No task is submitted twice in a run |
| `SchedulerRuns.LaunchedAfterDependencies` | runtime/model_routing/scheduler.py:602-617 | A task is submitted only when all its dependencies have succeeded, and each of them keeps that very record to the end of the run |
| `SchedulerRuns.FailFastStopsSubmission` | runtime/model_routing/scheduler.py:640-641 | Under fail-fast nothing is submitted after a failing completion has been processed |
| `SchedulerTheorems.ConcurrencyWithinLimits` | runtime/model_routing/scheduler.py:593-627 | At every point each provider counter is the number of its tasks in flight and within its limit, and the total is within `maxConcurrency` |
| `SchedulerTheorems.AttemptHistory` | runtime/model_routing/scheduler.py:463-535 | Attempts are appended to the history found, numbered 1 to n, at most `maxAttempts` in a run; none that is followed by another ended with 64 or 66; a success has a last attempt that succeeded with exit code 0 |
| `SchedulerTheorems.ContextIsAvailable` | runtime/model_routing/scheduler.py:342-407 | Every artifact selected by a launched task is of a direct dependency that has succeeded and has attempts, so "no attempt artifacts" cannot occur, and the prompt stays within its budget |
| `SchedulerTheorems.NeverStuck` | runtime/model_routing/scheduler.py:618-623 | No run of an accepted workflow reaches "made no progress", and one that leaves the loop has every task terminal, in memory and on file |
| `SchedulerTheorems.EndStatus` | runtime/model_routing/scheduler.py:644-663 | Every run that has exited is cancelled, in memory and on file, if and only if a cancellation came; otherwise it is succeeded if and only if every task is succeeded or verified, and failed if and only if some task is neither |
| `SchedulerTheorems.CancelledStartsNothing` | runtime/model_routing/scheduler.py:600-608 | A run that starts with a recorded cancellation submits nothing, records no attempt and can only end as cancelled |
| `SchedulerTheorems.StartsSomethingIff` | runtime/model_routing/scheduler.py:600-617 | An undisturbed run submits something if and only if no cancellation is on file and some pending task is not downstream of a failed one |
| `Termination.MeasureFalls` | runtime/model_routing/scheduler.py:599-643 | Every step of the scheduler or its workers lowers a measure; steps from outside leave it unchanged |
| `Termination.CanMove` | runtime/model_routing/scheduler.py:599-643 | Until it has exited the scheduler has a step to take, if runner calls return |
| `Termination.RunTerminates` | runtime/model_routing/scheduler.py:598-664 | The number of steps in a run is bounded from its start, and a run that cannot go on by itself has exited with every task terminal |
| `ScheduleIndependence.RunEndsWithResult` | runtime/model_routing/scheduler.py:538-663 | Under `continue` a run that is not cancelled ends with the declarative result: a settled task keeps its state, another has its own outcome if all its dependencies succeeded, and is blocked otherwise |
| `ScheduleIndependence.StatusFollowsResult` | runtime/model_routing/scheduler.py:644-663 | So the status of such a run follows from the declarative result: succeeded exactly if every state in it is succeeded or verified |
| `ScheduleIndependence.SchedulesAgree` | runtime/model_routing/scheduler.py:598-663 | Two such runs with the same outcome for each task end in the same task states, whatever the limits, task orders and interleavings |
| `RetryLoop.VerificationIff` | runtime/model_routing/scheduler.py:410-460 | Succeeded if and only if there is no command; verified if and only if there are commands and all exit with 0; failed if and only if some command does not exit with 0 |
| `RetryLoop.RetriedIff` | runtime/model_routing/scheduler.py:463-468 | An attempt is tried again if and only if attempts are left, it neither passed nor was cancelled, its exit code is neither 64 nor 66, and it timed out and timeouts are retried, or its transport failed and that is retried |
| `RetryLoop.VerdictExplained` | runtime/model_routing/scheduler.py:522-533 | Each result that an attempt can end the loop with, if and only if its answer and the exit codes are of the kind that calls for it |
| `RetryLoop.LastAttemptDecides` | runtime/model_routing/scheduler.py:484-535 | The retry loop stops at the first attempt that is not retried, within `maxAttempts`, every earlier one was retriable, and the result is the verdict on that attempt alone |
| `RetryLoop.WorkerResultIsLoop` | runtime/model_routing/scheduler.py:471-535 | In every run that is not cancelled, under any interleaving, a finished worker returns exactly what the loop makes of the answers to its attempts |
| `RetryLoop.ResultExplained` | runtime/model_routing/scheduler.py:471-535 | In every run that is not cancelled, the result of a finished worker is the one that its last recorded outcome calls for; it is verified if and only if that attempt succeeded with exit code 0, there are commands and all exited with 0 |
| `RetryLoop.AnswersGiveOutcomes` | runtime/model_routing/scheduler.py:625-636 | So the answers of the attempts fix the outcome of each task |
| `RetryLoop.SameAnswersAgree` | runtime/model_routing/scheduler.py:471-663 | Two runs under `continue` that are not cancelled and in which each attempt is answered alike end in the same task states |
| `SchedulerDriver.Perform` | runtime/model_routing/scheduler.py:471-664 | Every move of the step system is made by a method of the process, with exactly its effect |
| `SchedulerDriver.Drive` | runtime/model_routing/scheduler.py:559-664 | The process itself, from its first write on and in any order of its own steps, cancels and signals, ends; its states are those of a run; every task is then terminal, the file agrees with memory, and the status is cancelled if a cancellation came, otherwise succeeded or failed by whether all tasks succeeded |
| `Controller.StateController.Write` | runtime/model_routing/scheduler.py:178-187 | A write puts the in-memory state on file, with the cancellation flag set if it was set in memory or on file |
| `Controller.StateController.Mutate` | runtime/model_routing/scheduler.py:189-192 | The same after an arbitrary in-place change |
| `Controller.StateController.Initialize` | runtime/model_routing/scheduler.py:584-587 | The reset of the flag holds exactly if the flag on file was clear |
| `Controller.CancelWorkflow` | runtime/model_routing/scheduler.py:841-857 | The request is recorded unless the workflow is finished and no scheduler holds the lease; a live scheduler is to be signalled |
| `Controller.Directory.OpenController` | runtime/model_routing/scheduler.py:173-176 | A new controller starts with its flag clear: one opening move on the flags of file and memories |
| `Controller.Directory.ResetFlag` | runtime/model_routing/scheduler.py:584-587 | `initialize` of any of several controllers is one reset move, and leaves the other memories alone |
| `Controller.Directory.WriteState` | runtime/model_routing/scheduler.py:178-187 | A write of any of them is one write move |
| `Controller.Directory.MutateState` | runtime/model_routing/scheduler.py:189-192 | So is any change that leaves the flag alone |
| `Controller.Directory.Cancel` | runtime/model_routing/scheduler.py:841-857 | An external cancel is one request move, refused exactly if the workflow is finished and not active |
| `Controller.CancellationIsSticky` | runtime/model_routing/scheduler.py:178-192 | Over any sequence of those moves, in any overlap of the controllers, the flag on file once set stays set, and it is never set without an accepted request |
| `Persistence.ResumeRecords` | runtime/model_routing/scheduler.py:777-814 | The loop over the persisted records accepts exactly if every successful task has an attempt; then running becomes cancelled, successes are kept and all else is pending |
| `Persistence.WorldKeepsInv` | runtime/model_routing/scheduler.py:738-818 | Starting, resuming, crashing at any point, cancelling and every scheduler step keep the state file consistent |
| `Persistence.ProgressIsKept` | runtime/model_routing/scheduler.py:777-818 | Over any life of a workflow a successful record never changes, attempt histories only grow and a recorded cancellation is never lost |
| `Persistence.StateFilesConsistent` | runtime/model_routing/scheduler.py:471-535 | Every state file ever on disk numbers attempts 1 to n and shows success only with a last attempt that succeeded with exit code 0 |
| `Persistence.ResumeAccepts` | runtime/model_routing/scheduler.py:790-814 | Resume never refuses a state file for its task map, and starts with no task running or ready |
| `Persistence.ResumeEligibility` | runtime/model_routing/scheduler.py:790-814 | After resume a task is pending if and only if it had neither succeeded nor been found running, cancelled if and only if it was found running, and only pending ones are submitted in that run |
| `WorkflowLife.RunWorkflow` | runtime/model_routing/scheduler.py:707-735 | A first run, from the first state file on and in any course, begins a life of the workflow and ends: every task is terminal, and the status on file says how the run went |
| `WorkflowLife.ResumeWorkflow` | runtime/model_routing/scheduler.py:738-818 | On any file that a life has led to, resume is not refused for the task map; the life goes on to such an end, and every successful record, every attempt and a recorded cancellation on file are kept |
| `WorkflowLife.WriteResumed` | runtime/model_routing/scheduler.py:777-817 | The checks of the task map and what is written: refused with the file untouched, or the resumed records with the flag that was on file |
| `WorkflowLife.AbandonedResume` | runtime/model_routing/scheduler.py:738-817 | A resume that dies before it takes the lease is a step of the life, too |
| `WorkflowLife.CancelStopped` | runtime/model_routing/scheduler.py:841-850 | So is a cancel with no scheduler running; the flag is set afterwards exactly if it was, or the workflow was not finished |
| `WorkflowLife.RunStateMachine` | runtime/model_routing/scheduler.py:559-664 | Every step of a process is a step of the life, and its last write ends it |
| `Dispatch.LogIsBounded` | runtime/model_routing/dispatch.py:35-43 | A legal log has at most seven entries, repeats none, has nothing after a terminal state and never contains `blocked` |
| `Dispatch.EnteredOnlyFrom` | runtime/model_routing/dispatch.py:35-43 | From which states each state can be entered; `blocked` and `created` from none |
| `Dispatch.ReachableStates` | runtime/model_routing/dispatch.py:35-43 | The table leads to every state except `blocked` |
| `Dispatch.Lifecycle.Transition` | runtime/model_routing/dispatch.py:248-254 | A transition that the table does not allow raises and changes nothing; an allowed one is appended even if writing it then fails; the second check can never be the one that raises |
| `Dispatch.FinishEarly` | runtime/model_routing/dispatch.py:334-372 | One transition, one sentinel, and the exit code it was given, unless the bookkeeping raises something that is not caught |
| `Dispatch.PreflightProvider` | runtime/model_routing/dispatch.py:411-467 | The search for the provider and the timeout tool: what is recorded, printed and returned on each early end |
| `Dispatch.ReadPrompt` | runtime/model_routing/dispatch.py:469-524 | The started record before or after the prompt, and the early end with 66 |
| `Dispatch.PrepareWorkspace` | runtime/model_routing/dispatch.py:526-588 | The workspace and the early end with 1; otherwise the dispatch is running |
| `Dispatch.RunProvider` | runtime/model_routing/dispatch.py:590-678 | The provider process and the final bookkeeping: receipt, finished record, end state and exit code by how the child ended: 127 not executed, 124 timed out, 130 cancelled, 128 + n killed by signal n, otherwise its own code, at most 255 |
| `Dispatch.DispatchLegacy` | runtime/model_routing/dispatch.py:375-678 | On every path the log is legal and at most one started record is made before at most one finished one; a return has printed one sentinel with the returned exit code, and a receipt exactly if receipts are on and a finished record was made; undisturbed, exit code, end state and records are, by the first thing that goes wrong, those of `EndsAs`: 127, 66 or 1 before a child, and by the fate of the child otherwise |
| `Dispatch.VerdictEndsAs` | runtime/model_routing/dispatch.py:375-678 | Every undisturbed dispatch ends with the exit code, the state and the records that its first failure or its child calls for, each spelled out |
| `Dispatch.OutputLineByLine` | runtime/model_routing/dispatch.py:107-119 | Standard output of a returned dispatch, line by line: the child's lines, the receipt if any, one sentinel |
| `Dispatch.PrintedReceiptParses` | runtime/model_routing/dispatch.py:666-678 | With receipts on, parsing all that a returned dispatch printed gives the finished record made, with the returned exit code, whatever the child printed; an early end without a receipt parses to none |
| `Dispatch.WithoutReceiptIff` | scripts/parse-shim-result.py:29-52 | When a child ran and no receipt was printed, the parser accepts r if and only if the last line of the child reads as the receipt r for the returned exit code |
| `Dispatch.AcceptedIff` | scripts/parse-shim-result.py:29-52 | Exactly what the parser accepts of any returned dispatch: the finished record if a receipt was printed, otherwise the last line of a child that ran, if it reads as a receipt |
| `Dispatch.AcceptedIsPrintedIff` | scripts/parse-shim-result.py:4-7 | An accepted receipt is the one the shim printed, if and only if one was printed, or no child ran, or the last line of the child does not read as a receipt for the returned exit code |
| `Dispatch.LookalikeAccepted` | scripts/parse-shim-result.py:4-7 | A dispatch that prints no receipt although one is accepted: receipts off, and a child that exits with 0 after a line of its own that reads as a receipt for 0 |
| `Dispatch.FinishedWithoutStart` | runtime/model_routing/dispatch.py:412-513 | A finished record has no started one before it in exactly two cases: a missing provider that is recorded, and an unreadable prompt of an adapter that starts its record later |
| `Dispatch.OutcomesAgree` | runtime/model_routing/dispatch.py:623-643 | Ledger and result document tell the same outcome if and only if a child that did not time out was neither cancelled nor exited with 124 |
| `Receipts.EmitSentinel` | runtime/model_routing/dispatch.py:107-119 | Receipt and sentinel are appended to standard output, each on its line, after the optional newline |
| `Receipts.ParseShimResult` | scripts/parse-shim-result.py:29-52 | The parser with its popping loop and early returns decides as the specification does, with the same reason |
| `Receipts.LinesOfWritten` | scripts/parse-shim-result.py:30-30 | However its lines are ended, by line feed, carriage return or both, a text is read as the lines that were written |
| `Receipts.EmittedPairParses` | scripts/parse-shim-result.py:29-52 | After any complete text an emitted pair parses to the emitted receipt if and only if the exit code is not negative and is the one that the receipt states |
| `Receipts.ReceiptRoundTrip` | scripts/parse-shim-result.py:29-52 | The same after any child output, with or without a final newline, and whatever lines the child printed |
| `Receipts.AcceptedIsTrailing` | scripts/parse-shim-result.py:36-49 | Whatever is accepted was decoded from the line before a final sentinel with its exit code |
| `Receipts.RefusedBecause` | scripts/parse-shim-result.py:29-49 | The reason of every refusal, by the first thing that is wrong with the last two lines |
| `Text.ParseOfNumeral` | scripts/parse-shim-result.py:48-48 | Parsing the decimal numeral of n gives n |
| `RoutingArgs.StripRoutingArgs` | runtime/model_routing/dispatch.py:182-226 | The index loop forwards, sets options and fails as the specification says |
| `WrittenOptions.StrippedAsMeant` | runtime/model_routing/dispatch.py:182-226 | Stripping any list written from arguments and well-formed options, spaced or joined by `=`, forwards the arguments in order and sets each option to the value written last; an automatic workspace becomes shared for reading and isolated for writing |
| `WrittenOptions.RefusedForFirstMistake` | runtime/model_routing/dispatch.py:182-226 | A list with a mistake in it is refused with the complaint about the first one |
| `WrittenOptions.EveryListIsWritten` | runtime/model_routing/dispatch.py:182-226 | Every argument list is of one of these two kinds |
| `RoutingArgs.ForwardsOnlyPlain` | runtime/model_routing/dispatch.py:182-226 | Nothing with the routing prefix is ever forwarded |
| `RoutingArgs.StrippingIsExact` | runtime/model_routing/dispatch.py:182-226 | Stripping the runner's argument list gives back exactly the provider's arguments in order if and only if none begins with the routing prefix, and then with the workspace of the task |
| `RoutingArgs.ProviderArgsPlain` | runtime/model_routing/scheduler.py:287-312 | The arguments built for a provider are free of the prefix if and only if the model, and the effort where it is an argument of its own, are |
| `RoutingArgs.ArgumentsCarryRoute` | runtime/model_routing/scheduler.py:287-312 | Routes of one provider have the same arguments if and only if prompt, model and effort are the same, except that kimi is not told the effort |
| `RoutingArgs.WriteIsolation` | runtime/model_routing/workflow.py:376-380 | End to end for every accepted write task: the shim forwards exactly the provider's arguments and resolves the workspace to `isolated`, if and only if neither model nor effort argument begins with the routing prefix |
| `Segments.CommandSegments` | plugins/subagent-model-routing-claude/hooks/dag-tripwire.py:107-157 | The scanner with its quote and escape variables yields the segments of the specification, which `Quoting.SegmentsAreSplits` gives without the scanner |
| `Segments.SegmentationIsLossless` | plugins/subagent-model-routing-claude/hooks/dag-tripwire.py:107-157 | Segments interleaved with the dropped separators give back the command |
| `Segments.DropsExactlyPlainSeparators` | plugins/subagent-model-routing-claude/hooks/dag-tripwire.py:107-157 | No separator is dropped in a state that is quoted or escaped, and every separator in the plain state is dropped; which characters those are, `Quoting.SegmentsAreSplits` says |
| `Segments.SegmentsCompose` | plugins/subagent-model-routing-claude/hooks/dag-tripwire.py:107-157 | If a leaves no quote or escape open, the segments of a;b are those of a followed by those of b |
| `Quoting.SegmentsAreSplits` | plugins/subagent-model-routing-claude/hooks/dag-tripwire.py:107-157 | For every command written from bare characters, escaped characters and quoted parts, the segments are its text cut at exactly the bare separators `;`, newline, backquote, `)`, `$(`, `|`, `||`, `&` and `&&`; no escaped or quoted character is ever dropped |
| `Quoting.EveryCommandIsWritten` | plugins/subagent-model-routing-claude/hooks/dag-tripwire.py:107-157 | Every command is written in that way, if need be with an open quote or a lone backslash at its end |
| `Quoting.NothingOpenIff` | plugins/subagent-model-routing-claude/hooks/dag-tripwire.py:115-136 | A command leaves nothing open if and only if it is written without such an end |
| `WrittenTokens.FindsTheCommand` | plugins/subagent-model-routing-claude/hooks/dag-tripwire.py:63-104 | For every segment written from assignments, leading words, `env` and `timeout` with their options, and a command, the search finds the word of the command, or the command string of a shell with an option that contains a `c` |
| `WrittenTokens.SegmentStartsIff` | plugins/subagent-model-routing-claude/hooks/dag-tripwire.py:63-104 | Such a segment starts a shim if and only if it is not blank and its command is a shim, a shell whose script is one, or a shell whose command string starts one |
| `WrittenTokens.EverySegmentIsWritten` | plugins/subagent-model-routing-claude/hooks/dag-tripwire.py:63-104 | Every list of words is written in that way |
| `Tripwire.ScanTokens` | plugins/subagent-model-routing-claude/hooks/dag-tripwire.py:63-104 | The nested index loops find the token or command string of the specification, and end |
| `Tripwire.DetectShim` | plugins/subagent-model-routing-claude/hooks/dag-tripwire.py:160-172 | The mutually recursive search ends if the word splitter never lengthens text, and decides as the specification does |
| `Tripwire.SegmentStartsShim` | plugins/subagent-model-routing-claude/hooks/dag-tripwire.py:162-171 | The body of that loop: blank segments, broken quoting and `bash -c` included |
| `Tripwire.NestedIsShorter` | plugins/subagent-model-routing-claude/hooks/dag-tripwire.py:88-97 | A nested command string is shorter than the segment it stands in |
| `Tripwire.ShimInvokedIff` | plugins/subagent-model-routing-claude/hooks/dag-tripwire.py:160-172 | A command starts a shim if and only if one of its segments does |
| `Tripwire.InvocationComposes` | plugins/subagent-model-routing-claude/hooks/dag-tripwire.py:160-172 | If a leaves no quote or escape open, a;b starts a shim if and only if a or b does |
| `Selection.MoveSelection` | runtime/model_routing/provider_setup.py:426-434 | The loop moves to the first missing row met in steps of the offset, around the list, or stays |
| `Selection.MoveIsRotation` | runtime/model_routing/provider_setup.py:426-434 | Down and up are rotations by one of the list of missing rows |
| `Selection.DownUpIsIdentity` | runtime/model_routing/provider_setup.py:426-434 | Down then up, and up then down, lead back |
| `Selection.DownVisitsAll` | runtime/model_routing/provider_setup.py:426-434 | Repeated down visits the missing rows one by one in cyclic order and is back after as many presses as there are |
| `Selection.EveryMissingRowIsReached` | runtime/model_routing/provider_setup.py:426-434 | Every missing row is reached by pressing down |
| `Selection.EveryRunIsValid` | runtime/model_routing/provider_setup.py:421-446 | Under any moves, by any offset, and toggles the cursor is on a missing row if there is one, and only providers of missing rows are chosen |
| `Selection.InstalledNeverConfirmed` | runtime/model_routing/provider_setup.py:421-450 | No run from the first screen confirms the provider of an installed row, if and only if no installed row shares its provider with a missing one |
| `Selection.ToggleFlips` | runtime/model_routing/provider_setup.py:437-446 | A toggle flips the provider under the cursor and no other, and a second one takes it back |
| `Selection.ConfirmedIff` | runtime/model_routing/provider_setup.py:449-450 | A provider is confirmed if and only if it is listed and chosen |
| `Selection.ConfirmedInOrder` | runtime/model_routing/provider_setup.py:449-450 | The confirmed providers come in the order of the rows |

## Left out

- Git, subprocesses, signal delivery, `flock`, temporary files and atomic replacement: a read, change and write of the state file under its lock is one step.
- Failing writes of the state file by the controller: a state file is written or the process has crashed before.
- The thread pool beyond submission, start, finish and completion, and the closing of the pool.
- Timestamps, paths, process ids, error texts, `verificationPath`, `resumeCommand` and the texts of validation messages.
- JSON as text: documents are trees, and the receipt's encoding is a parameter without line breaks that decoding inverts.
- Digests, host, registry and Git identity checks of resume, and its checks of result files and worktrees: a resume that fails them is one that does not happen.
- Resumes that overlap: claims about the persisted task map assume that resumes do not, because resume writes before it takes the lease. The claim about the cancellation flag does not.
- `shlex` and the regular expressions of the tripwire hook: the word splitter is a function that never lengthens text, the token tests are functions.
- A JSON list or object where the validator looks a value up in a set: Python raises another exception there, the model refuses the document.
- Numbers that are not a number or infinite, registries with members of the wrong type beyond the cases modelled, and repeated keys in JSON text: objects are the mappings that parsing delivers.
- UTF-8 encoding and decoding, which are functions from and to byte sequences.
- The normalisation loops other than those over `dependsOn` and over models are functions that build their lists front to back.
- `_execute_task` is not one method: its loop is the sequence of a worker's methods of `SchedulerProcess.Process`, so that others can run in between.
- `dispatch_legacy` does not show hooks, events, artifacts, digests and the contents of the result document; where they can raise, the surroundings say so.
- The ledger of a dispatch is the list of the records made. Whether a record then reaches the ledger file is not modelled: the code ignores a failing append, and the receipt is the record either way.
- Signals after the last write of a process, which nothing reads.
- JSON rendering of a diffstat: it is a function, of which `Prompts.HeaderRightIff` asks that a longer text that still parses adds only blanks, and that a text that does not parse is not the rendering of a longer one.
- `run_process` as a supervisor: only its exit code and the child's output enter.
- The claim that every validated provider can run: `_provider_args` has no branch for `qwen`, and the theorems about arguments ask for a provider that has one.
- `doctor.py`, `discovery.py`, `hooks.py`, installers and downloads, the terminal session, the command line and the tools: probes, input and output, and reporting.
- The Git-backed functions of `workspace.py`: their meaning lies in Git.
- `ledger-tripwire.py`, which repeats the segmenter modelled here.
- Tripwire.InvocationComposes: asks that the first command leaves no quote or escape open, since otherwise the separator between the two is quoted.
- Persistence.ProgressIsKept: assumes runs and resumes that do not overlap, as stated above.
- ScheduleIndependence.SchedulesAgree: is about runs in which each task has a fixed outcome and which are not cancelled; under fail-fast the outcome does depend on the schedule.

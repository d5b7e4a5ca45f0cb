# AgentProbe, verified

A Dafny model of the parts of AgentProbe whose correctness is decided by code: how a run is
executed, stored, resumed and summarized, how sessions, rate limits and caps behave over
whole histories, and the small languages of the HTTP adapter and the agent form.
`dafny verify dfyconfig.toml` checks all of it.

| files | what they model |
|---|---|
| `AttemptResults`, `Suite` | the values attempts, judges and adapters exchange; the plan |
| `RunStore` | the run row, its result rows, and the guarded updates (a class, and the same as functions) |
| `RunProtocol`, `RunSafety`, `RunRecovery`, `RunFailures`, `RunLimits` | the Redis backend: every interleaving of start, attempt, finalize, cancel, recovery, redelivery and crash over one run; safety over all histories; termination after recovery; how a run fails and that what it saved is summarized; exactly where its guarantees end |
| `WorkerPool`, `LateDeliveries`, `InlineRun`, `InlineOutcome`, `InlineProgress` | `run_suite`'s pool under every schedule and cancellation, and the deliveries that outlive it; the inline backend over the pool and the store, what it stores, and that it ends |
| `Sorting`, `RunSummary`, `SummaryOrder`, `SummaryMeaning`, `SummaryCounts` | `finalize_run`, `check_results`, what order of arrival can and cannot change, and what the numbers mean and count |
| `Clustering` | the single-linkage merge loop, against connected components |
| `Lines`, `LineDiff` | the line diff, against the longest common subsequence |
| `SessionRefresh`, `SessionUsers` | tabs that open, close and lose requests, a cookie jar, a lock and the server's reuse detection; whose sessions they are |
| `RateLimit`, `RateRefusals`, `Admission` | token buckets in memory and in Redis, and exactly when they refuse; the rolling caps on runs |
| `EventBus`, `Progress`, `ProgressBus` | the in-process bus (classes); streams that subscribe before their snapshot; that the bus carries the streams |
| `Scanning`, `Tiling`, `Json`, `JsonPath`, `RequestTemplate` | the JSONPath subset and the request template |
| `HeaderText`, `AgentForm`, `FormHost` | the agent form: header box, draft and config; a host that meets the laws it relies on |
| `Judging` | one attempt's judging, and the trace view of its verdicts |

The protocols are state machines: a system state, the steps that are possible in it, and an
invariant every step keeps; theorems are about every history, of any length, of any number
of processes, tabs or streams. Where the source changes things in place the model does too:
the store, the limiter and the bus are classes, and the merge loop, the diff table, the
summary, the parsers and the judging are methods with loops, each proved against a
specification that the lemmas are about.

Some statements one would like to make are false of the code. Each has a lemma with a concrete
case, and the exact condition or the strongest true statement beside it:

- `docs/decisions/0017-server-runner-and-queue.md` says the agent is never called twice for
  one attempt. Two overlapping deliveries both look for the row before either saves it
  (`OverlappingDeliveriesCallTwice`); exactly an unsaved attempt of a live run, or one that a
  job is about to look for, can be called once more (`CalledAgainExactly`).
- A crash between the last save and the kick of `finalize` is not repaired by redelivery
  (`CrashBeforeFinalizeStrands`), only by recovery (`RecoveryEndsTheRun`); `StrandedExactly`
  says when a live run needs one.
- `run_suite` can raise while a delivery is still saving its result: when it is stopped after a
  worker crashed, or cancelled while it waits for deliveries (`LeftRunningExactly`,
  `CanLeaveRunningExactly`). It never returns a summary so (`DeliveriesAreWhole`), and on the
  inline backend such a delivery finds the run ended unless the process is shutting down
  (`NoLateRows`).
- An infrastructure error on the last attempt fails the run, unless a start job that is still
  on its way finds nothing missing and has it completed first (`LastErrorFailsExactly`).
- A cancelled inline run can store a summary of an attempt it did not save
  (`CancelledSummaryCanExceedRows`, `MemorySummaryMatches`).
- Results of cases the suite does not have tie in the summary's order
  (`ArrivalMattersExactly`).
- A lost refresh response can make a later refresh look like theft, exactly when no login has
  replaced the presented token in the jar (`LossIsHarmfulExactly`); one tab is enough
  (`OneTabCanLose`).
- A browser without locks is safe with one tab open at a time only (`LocksOrOneTabExactly`).
- A stream waits for ever if the process that ended the run dies before it publishes that
  (`CrashLeavesWaiting`); `CanEndExactly` says which streams can still end.
- A row is dated by its transaction's start, on Postgres, and the check counts back from its
  own later time, so windows slightly shorter than a day are capped, not whole days
  (`ProtectedWindow`).
- The form loses a header called `__proto__` and outer spaces of a header's value, both
  accepted by the server (`HeadersRoundTripExactly`), and refuses a template with spaces
  inside the braces of its placeholder (`SpacedPlaceholderIsRefused`).
- The trace view raises for an uploaded attempt with more judgments than its case has judges
  (`ShowTrace`, `UploadedAttemptMayNotShow`).

Rounding is not modelled: money, scores, distances, tokens and times are reals.

## Model

| member | source | states |
|---|---|---|
| AttemptResults.PlanMembers | packages/core/src/agentprobe_core/runner.py:481-483 | A run plans exactly the pairs of a suite case and an index below the run count. |
| AttemptResults.PlanIsDistinct | packages/core/src/agentprobe_core/runner.py:481-483 | With distinct case ids no attempt is planned twice, and there are cases times runs of them. |
| RunStore.UpdatesKeepConsistent | apps/api/src/agentprobe_api/runstore.py:227-351 | Every guarded update keeps: finish time if and only if ended, count equal to the number of rows, rows under their own key, a queued run has no rows. |
| RunStore.UpdatesMoveForward | apps/api/src/agentprobe_api/runstore.py:227-351 | Every guarded update keeps saved rows, never goes back to queued, and leaves an ended run's status, error, finish time, rows and count as they are. |
| RunStore.Store.constructor | apps/api/src/agentprobe_api/runs.py:180-197 | A new run is queued, with nothing saved. |
| RunStore.Store.Claim | apps/api/src/agentprobe_api/runstore.py:227-241 | Claims exactly a live run: it is running, with this heartbeat and its first start time; rows and counts stay; an ended run is left alone. |
| RunStore.Store.Finish | apps/api/src/agentprobe_api/runstore.py:244-256 | Ends exactly a live run with the given outcome, message and time, its rows untouched; an ended run is left alone. |
| RunStore.Store.InsertAttempt | apps/api/src/agentprobe_api/runstore.py:323-331 | The insert half: refused exactly when the attempt is already saved; nothing is visible yet. |
| RunStore.Store.CommitAttempt | apps/api/src/agentprobe_api/runstore.py:341-351 | The locked half: commits and counts the row if and only if the run is running, else rolls it back. |
| RunStore.Store.SaveAttempt | apps/api/src/agentprobe_api/runstore.py:309-351 | Saves if and only if the run is running and the attempt is new; otherwise nothing at all changes; returns the new count. |
| RunStore.Store.SaveSummary | apps/api/src/agentprobe_api/runstore.py:510-547 | Completes a live run and no other; stores the summary either way. |
| RunProtocol.CreatedInv | apps/api/src/agentprobe_api/runs.py:180-200 | A freshly created run, with its start job kicked, meets the invariant. |
| RunProtocol.StepInv | apps/api/src/agentprobe_api/worker.py:100-150 | Every step of every start, attempt, finalize, cancel and recover process, every redelivery, lost message and crash keeps the protocol invariant. |
| RunProtocol.StepForward | apps/api/src/agentprobe_api/queue.py:67-103 | Every step moves the run forward; an ended run never moves again. |
| RunProtocol.FrozenRows | apps/api/src/agentprobe_api/queue.py:106-108 | Once no row can be saved any more, forward moves leave the rows as they are. |
| RunProtocol.CountBoundsPlan | apps/api/src/agentprobe_api/queue.py:103-103 | The count never exceeds the plan, and reaches it exactly when every planned attempt is saved, which is what the completion test relies on. |
| RunSafety.RunInv | apps/api/src/agentprobe_api/worker.py:100-150 | The invariant holds at every moment of every history. |
| RunSafety.CountsAndRows | apps/api/src/agentprobe_api/runstore.py:309-351 | Over all histories: count equals saved rows, rows are distinct planned attempts, finish time if and only if ended, completed implies every planned attempt saved. |
| RunSafety.RunForward | apps/api/src/agentprobe_api/runstore.py:244-256 | Between any two moments saved rows are unchanged, and a terminal status, its error and finish time never change. |
| RunSafety.FinalizeSeesFrozenRows | apps/api/src/agentprobe_api/queue.py:106-126 | From the moment a finalize is pending, about to be kicked or under way, no row is ever saved again, so all its deliveries load the same attempts. |
| RunSafety.OneSummary | apps/api/src/agentprobe_api/runstore.py:510-547 | A stored summary covers exactly the rows saved then and ever after. |
| RunSafety.OneSaveCompletes | apps/api/src/agentprobe_api/queue.py:76-103 | At most one save of a run ever reports it complete. |
| RunSafety.CompletesExactly | apps/api/src/agentprobe_api/queue.py:76-103 | A step reports the run complete exactly if it saves the last missing attempt and that is no infrastructure error. |
| RunSafety.BrokerMovesMessages | apps/api/src/agentprobe_api/worker.py:41-59 | A delivery takes its message from the queue, a crash puts its job's back, and no delivery, crash, repetition, loss or recovery touches the run. |
| RunFailures.InfraErrorIsSaved | apps/api/src/agentprobe_api/queue.py:76-103 | The row of an infrastructure error is saved and counted, and never reported as the one that completes the run. |
| RunFailures.FailureIsRecorded | apps/api/src/agentprobe_api/queue.py:67-103 | Over every history: unless it crashes, a job that met an infrastructure error or could not rebuild its plan leaves no live run with its next step, and fails one still live for exactly that reason. |
| RunFailures.FailureIsFinalized | apps/api/src/agentprobe_api/worker.py:139-150 | Then an attempt job kicks finalize, and any other is done. |
| RunFailures.LastErrorFailsExactly | apps/api/src/agentprobe_api/queue.py:100-103 | After an infrastructure error on the last attempt, every crash-free way of working off the jobs without a cancel ends failed if and only if no start job is on its way. |
| RunFailures.WhatWasSavedIsSummarized | apps/api/src/agentprobe_api/queue.py:106-126 | After a cancel, an attempt's failure or the last save, working off the jobs without a crash leaves a summary of exactly the saved rows, if finalize can load the plan. |
| RunSafety.SavedIsNotExecutedAgain | apps/api/src/agentprobe_api/worker.py:134-135 | Once an attempt is saved, no job that has not yet looked for it calls the agent for it. |
| RunSafety.OverlappingDeliveriesCallTwice | apps/api/src/agentprobe_api/worker.py:134-149 | Two overlapping deliveries of one attempt both call the agent: the concrete history that refutes the design record; `RunLimits.CalledAgainExactly` is the exact condition. |
| RunSafety.CrashBeforeFinalizeStrands | apps/api/src/agentprobe_api/worker.py:149-150 | A crash between the last save and the finalize kick leaves, after redelivery, a running run with nothing left to do: the concrete history; `RunLimits.StrandedExactly` is the exact condition. |
| RunLimits.CalledAgainExactly | apps/api/src/agentprobe_api/worker.py:132-146 | From any state, some history brings a process not already at an attempt to call the agent for it if and only if the attempt is unsaved and the run is live, or some job has passed the status check and not looked yet. |
| RunLimits.StrandedStays | apps/api/src/agentprobe_api/worker.py:115-150 | A live run that nothing has promised to end stays one through every crash-free step, if nothing fails or cancels it. |
| RunLimits.StrandedExactly | apps/api/src/agentprobe_api/worker.py:115-150 | Without a recovery, failure or cancel, every way of working off the jobs ends a live run if something in progress has promised to, and none does otherwise. |
| RunLimits.QuietDrainExists | apps/api/src/agentprobe_api/worker.py:115-150 | Such a way of working off the jobs always exists. |
| RunRecovery.CrashFreeStepsEnd | apps/api/src/agentprobe_api/worker.py:100-150 | Every crash-free step lowers a measure, a user's cancel included. |
| RunRecovery.NeverStuck | apps/api/src/agentprobe_api/runstore.py:318-331 | Unless nothing is left to do, some crash-free step is possible; waiting for a concurrent insert of the same row never deadlocks. |
| RunRecovery.StepKeepsPromise | apps/api/src/agentprobe_api/worker.py:115-150 | Crash-free steps keep the promise that some message or process will end a live run. |
| RunRecovery.RecoverPromises | apps/api/src/agentprobe_api/queue.py:259-262 | Recovery makes that promise for a live run in any reachable state, whatever a crash left behind. |
| RunRecovery.RecoveryEndsTheRun | apps/api/src/agentprobe_api/queue.py:218-222 | After recovery a crash-free history is bounded by the measure, can go on until nothing is left to do, and then the run has ended. |
| RunRecovery.CanBeDrained | apps/api/src/agentprobe_api/queue.py:259-262 | From every recovered state a crash-free history to an ended run exists. |
| RunRecovery.CreationPromises | apps/api/src/agentprobe_api/runs.py:197-200 | A run that meets no crash ends without recovery. |
| RunRecovery.RecoveryCompletesTheRun | apps/api/src/agentprobe_api/worker.py:115-150 | Without infrastructure errors, unrecoverable plans and cancels, a recovered run ends completed, every planned attempt saved and counted, its summary exactly those. |
| WorkerPool.Remaining | packages/core/src/agentprobe_core/runner.py:574-576 | The attempts to do are exactly the planned ones that no completed result covers. |
| WorkerPool.StepInv | packages/core/src/agentprobe_core/runner.py:588-622 | Every scheduling step keeps the books: each attempt popped is answered, in flight or cut off, and each fresh result has its own delivery. |
| WorkerPool.AttemptsStartOnce | packages/core/src/agentprobe_core/runner.py:573-600 | For every schedule attempts start in plan order, each planned and not completed, none twice, at most `concurrency` in flight. |
| WorkerPool.UsesConcurrency | packages/core/src/agentprobe_core/runner.py:594-600 | As many agent calls can run at once as `concurrency` and the remaining attempts allow. |
| WorkerPool.DeliveriesAreWhole | packages/core/src/agentprobe_core/runner.py:584-622 | A summary is returned only when every fresh result has been delivered exactly once, whole and without a failure; however the call ends, no agent call is left running. |
| WorkerPool.LeftRunningExactly | packages/core/src/agentprobe_core/runner.py:604-615 | The call ends with a delivery still running if and only if one is running and it raises because it was stopped after a worker crashed, or was cancelled while waiting for deliveries. |
| WorkerPool.CancelLeavesRunning | packages/core/src/agentprobe_core/runner.py:608-613 | From any state with a crashed worker and a running delivery, the cancel event can end the call with that delivery running. |
| WorkerPool.AbandonLeavesRunning | packages/core/src/agentprobe_core/runner.py:614-615 | From any state with a running delivery and no crash, a cancel of the call while it settles can end it so too. |
| WorkerPool.TwoAnswered | packages/core/src/agentprobe_core/runner.py:588-600 | Such a state is reachable: one of two deliveries failed, the other running. |
| LateDeliveries.CanLeaveRunningExactly | packages/core/src/agentprobe_core/runner.py:588-615 | From any state, some continuation ends the call with a delivery still running if and only if one is running or can still begin (an agent call is running, or a free worker has an attempt left). |
| LateDeliveries.LeftRunningMeans | packages/core/src/agentprobe_core/runner.py:602-615 | In every run that ended with a delivery running, the call was cancelled while it waited for deliveries, or was stopped and a delivery had failed; a call nobody cancels leaves none. |
| WorkerPool.ResultsAreThePlan | packages/core/src/agentprobe_core/runner.py:579-622 | Results are of distinct planned attempts; a completed return has, with what it resumed from, the whole plan exactly once. |
| WorkerPool.ReturnIsClean | packages/core/src/agentprobe_core/runner.py:616-632 | A completed summary is returned only if no worker was stopped and no delivery failed; any summary only after every delivery succeeded. |
| WorkerPool.StepsEnd | packages/core/src/agentprobe_core/runner.py:588-615 | Every scheduling step lowers a measure. |
| WorkerPool.NeverStuck | packages/core/src/agentprobe_core/runner.py:602-615 | Until the call ends some task can go on without anybody cancelling or failing. |
| InlineRun.StepInv | apps/api/src/agentprobe_api/queue.py:146-207 | Every step of an inline execution (claims, deliveries during and after `run_suite`, cancels, failures, shutdown, endings) keeps its invariant and moves the run forward. |
| InlineProgress.StepLowers | apps/api/src/agentprobe_api/queue.py:146-207 | Every step of an inline execution lowers a measure. |
| InlineProgress.NeverStuck | apps/api/src/agentprobe_api/queue.py:146-207 | Until the task and its deliveries are done, something can go on without anybody cancelling or failing. |
| InlineProgress.ExecutionEnds | apps/api/src/agentprobe_api/queue.py:146-207 | An inline execution is bounded and never stuck; when it is over, the run has ended or the process was shutting down. |
| InlineProgress.NoLateRows | apps/api/src/agentprobe_api/queue.py:161-178 | Once `run_suite` has returned or raised, no row is saved any more and any delivery that outlives it finds the run ended, unless the task had been cancelled from outside by then. |
| InlineRun.ExecutionForward | apps/api/src/agentprobe_api/queue.py:146-185 | Between any two moments of an inline execution the run only moves forward. |
| InlineRun.CompletedRunIsWhole | apps/api/src/agentprobe_api/queue.py:165-183 | A completed inline run has every planned attempt saved and a summary of exactly those rows. |
| InlineRun.FinalizedIsSaved | apps/api/src/agentprobe_api/queue.py:184-185 | An execution that goes through finalize summarizes exactly the rows saved then and ever after. |
| InlineOutcome.SummaryFollowsEnding | apps/api/src/agentprobe_api/queue.py:178-185 | When the task is over, a run whose `run_suite` returned a cancelled summary has a summary of exactly its saved rows, and one whose `run_suite` completed has one of the whole plan, unless something outside it failed. |
| InlineOutcome.CancelledIsSummarized | apps/api/src/agentprobe_api/queue.py:184-185 | Some execution is cancelled after a save and ends with a summary of exactly that row. |
| InlineOutcome.RaisedIsRecorded | apps/api/src/agentprobe_api/queue.py:204-213 | A task that fails leaves no live run: one that was live is failed, as an internal error once `run_suite` had begun. |
| InlineOutcome.InfraErrorFailsTheRun | apps/api/src/agentprobe_api/queue.py:161-163 | After the row of an infrastructure error is saved, its delivery, unless it fails, leaves no live run, fails one still live for that error, and then sets the cancel event. |
| InlineOutcome.UndisturbedCompletes | apps/api/src/agentprobe_api/queue.py:146-185 | An execution of a live run that nothing disturbs completes it: every planned attempt saved, counted and summarized. |
| InlineRun.MemorySummaryMatches | apps/api/src/agentprobe_api/queue.py:179-183 | The summary computed in memory equals the saved rows if and only if the whole plan is saved. |
| InlineRun.CancelledSummaryCanExceedRows | apps/api/src/agentprobe_api/queue.py:179-183 | A cancel between the last answer and its save: a reachable state whose stored summary covers an unsaved attempt. |
| Sorting.SortPermutes | packages/core/src/agentprobe_core/runner.py:414-414 | Sorting keeps exactly the elements. |
| Sorting.SortOrders | packages/core/src/agentprobe_core/runner.py:414-414 | Sorting orders by key. |
| Sorting.SortIsStable | packages/core/src/agentprobe_core/runner.py:363-364 | Equal keys keep their order of arrival. |
| Sorting.SortIgnoresArrival | packages/core/src/agentprobe_core/runner.py:414-414 | On distinct keys the outcome does not depend on the order of arrival. |
| RunSummary.Failures | packages/core/src/agentprobe_core/runner.py:320-328 | The first few distinct failure reasons, in order of first occurrence. |
| RunSummary.GroupByCase | packages/core/src/agentprobe_core/runner.py:362-364 | Each case's attempts, in attempt order, and no case without attempts. |
| RunSummary.SummarizeCase | packages/core/src/agentprobe_core/runner.py:371-406 | The loops compute the case result that the laws on numbers, failures and consistency verdicts below are about. |
| RunSummary.FinalizeRun | packages/core/src/agentprobe_core/runner.py:343-437 | The loop computes the summary that the laws below are about. |
| SummaryOrder.ArrivalDoesNotMatter | packages/core/src/agentprobe_core/runner.py:362-437 | Permuting results with distinct sort keys changes nothing in the summary. |
| SummaryOrder.ArrivalMattersExactly | packages/core/src/agentprobe_core/runner.py:413-414 | For distinct attempts the summary is order-independent if and only if no two results of unknown cases share an attempt index. |
| SummaryOrder.ResultsInSuiteOrder | packages/core/src/agentprobe_core/runner.py:413-436 | The summary lists the very results it was given, by suite order and then attempt. |
| SummaryMeaning.MeanIsExact | packages/core/src/agentprobe_core/runner.py:331-333 | A mean exists exactly when some value is known, and times their number it is the sum of the known values. |
| SummaryMeaning.TotalIsExact | packages/core/src/agentprobe_core/runner.py:336-340 | A total exists exactly when every value is known, of at least one, and is their sum. |
| SummaryMeaning.CaseNumbers | packages/core/src/agentprobe_core/runner.py:371-378 | A case's mean score and latency are the means of its attempts', its cost their sum. |
| SummaryMeaning.RunCosts | packages/core/src/agentprobe_core/runner.py:432-434 | The run's agent and judge costs are the sums over the results it was given, in any order. |
| SummaryMeaning.FailuresMean | packages/core/src/agentprobe_core/runner.py:320-328 | A case's failures are at most five distinct reasons, by first occurrence, and all of them when there are fewer than five. |
| SummaryMeaning.ConsistencyMeans | packages/core/src/agentprobe_core/runner.py:379-395 | A case is judged once by each consistency judge over its attempts' outputs if any answered; each verdict that is no pass is a further failure. |
| SummaryOrder.CheckResults | packages/core/src/agentprobe_core/runner.py:486-504 | Accepts exactly distinct attempts of the plan; else names the first result that is unplanned or repeated. |
| SummaryOrder.CasesAddUp | packages/core/src/agentprobe_core/runner.py:366-430 | For results of known cases the per-case attempts, passes and errors add up to the run's. |
| SummaryCounts.CasesAreCounted | packages/core/src/agentprobe_core/runner.py:363-378 | The cases listed are exactly those of the suite with an attempt, in suite order, and each counts its own attempts, those passed and those errored, as numbers of places in the given results. |
| SummaryCounts.RunIsCounted | packages/core/src/agentprobe_core/runner.py:416-434 | The run counts all results, those errored and those with an infrastructure error; its tokens are the sum of the known ones, if any; it started when its first attempt in suite order did. |
| SummaryOrder.ReadingsAgree | apps/api/src/agentprobe_api/runstore.py:397-404 | Any two readings of the saved rows, in any order, give the same summary. |
| Clustering.Distances | packages/core/src/agentprobe_core/findings.py:85-88 | The matrix holds each pair's distance, symmetric. |
| Clustering.Nearest | packages/core/src/agentprobe_core/findings.py:91-93 | The least gap, the lowest indices among ties. |
| Clustering.TakeSmaller | packages/core/src/agentprobe_core/findings.py:98-99 | The aliased in-place loop leaves row and column i with the smaller entries and changes nothing else. |
| Clustering.Drop | packages/core/src/agentprobe_core/findings.py:100-102 | Row and column j are gone, the rest is as it was. |
| Clustering.MergeGaps | packages/core/src/agentprobe_core/findings.py:98-102 | One merge of the matrix. |
| Clustering.MergeInv | packages/core/src/agentprobe_core/findings.py:96-102 | A merge within the threshold keeps a partition ordered by smallest member, which comes first, without repeats, each cluster connected. |
| Clustering.MergedGapsHold | packages/core/src/agentprobe_core/findings.py:98-102 | After a merge every off-diagonal gap is again the least member-pair distance of its two clusters. |
| Clustering.AgglomerativeCluster | packages/core/src/agentprobe_core/findings.py:69-103 | Returns exactly the connected components of the graph joining outputs at most the threshold apart, ordered by smallest member, each without repeats. |
| Clustering.LargerThresholdCoarsens | packages/core/src/agentprobe_core/findings.py:94-95 | A larger threshold only joins clusters. |
| Clustering.ReorderingKeepsGroups | packages/core/src/agentprobe_core/findings.py:69-78 | Reordering the outputs regroups nothing. |
| Clustering.ComponentsAreUnique | packages/core/src/agentprobe_core/findings.py:72-75 | Only one list of clusters meets the contract: the same input always yields the same clusters. |
| LineDiff.LcsIsLongest | apps/web/src/lib/line-diff.ts:14-20 | No common subsequence is longer than the table's value. |
| LineDiff.KeptIsCommon | apps/web/src/lib/line-diff.ts:21-37 | What any diff keeps is a common subsequence, and keeping more makes it shorter. |
| LineDiff.OptimalDiff | apps/web/src/lib/line-diff.ts:21-37 | A diff keeping the table's value of lines is as good as any other. |
| LineDiff.FillTable | apps/web/src/lib/line-diff.ts:14-20 | Every cell is the longest common subsequence of its suffixes, within 32 bits. |
| LineDiff.Walk | apps/web/src/lib/line-diff.ts:21-34 | The greedy walk spells both consumed prefixes and keeps optimally. |
| LineDiff.LineDiff | apps/web/src/lib/line-diff.ts:10-38 | Null exactly above the cell limit; else a diff that spells both texts, keeps as many lines and is as short as any. |
| Lines.JoinSplit | apps/web/src/lib/line-diff.ts:11-12 | Joining undoes splitting; no line holds a line break. |
| Lines.SplitJoin | apps/web/src/lib/agent-form.ts:88-88 | Splitting undoes joining lines without line breaks. |
| SessionRefresh.RevokeUser | apps/api/src/agentprobe_api/auth.py:346-350 | Reuse revokes every token of that user and no other. |
| SessionRefresh.StepExclusive | apps/web/src/lib/api/session.ts:22-31 | At most one tab is between probe and answer at a time. |
| SessionRefresh.StepTokens | apps/api/src/agentprobe_api/auth.py:339-356 | Every step that does not lose the jar's own cookies keeps: no presented token has been rotated, a rotated token in the jar is about to be replaced, and a request nobody waits for is harmless. |
| SessionUsers.RefreshKeepsUser | apps/api/src/agentprobe_api/auth.py:354-356 | Over every history, with any losses and races, an answered refresh issues a session of the user whose token was presented. |
| SessionUsers.JarKeepsUser | apps/api/src/agentprobe_api/auth.py:354-356 | Until a login arrives the jar stays with its user. |
| SessionUsers.ReuseRevokesFamily | apps/api/src/agentprobe_api/auth.py:345-352 | A rotated token that is presented again revokes every token ever rotated from it, directly or not, and leaves other users' tokens alone. |
| SessionUsers.SessionsLast | apps/api/src/agentprobe_api/auth.py:353-356 | While no session runs out on the server, and with locks or one tab at a time and no cookies lost, every refresh that carries a token is granted. |
| SessionUsers.RefreshWorks | apps/web/src/lib/api/session.ts:22-40 | A tab that meets a 401 while nobody else refreshes ends with an accepted access token and a new, valid token of the same user; only the old one is revoked. |
| SessionRefresh.NeverTakenForTheft | apps/web/src/lib/api/session.ts:22-40 | With locks, or one tab open at a time, and no response lost while the jar holds the token it answers, the reuse branch is never taken and nothing is mass-revoked, whatever else fails and whichever tabs open and close. |
| SessionRefresh.OneRefreshPerExpiry | apps/web/src/lib/api/session.ts:10-15 | If no response is lost, at most one refresh for each death of the access token, over all tabs. |
| SessionRefresh.LossIsHarmfulExactly | apps/web/src/lib/api/session.ts:22-39 | After a response is lost, by closing the tab or by the network, before or after the server has rotated the token, some continuation that loses none is taken for theft if and only if the jar still holds the presented token. |
| SessionRefresh.LossRevokesEverything | apps/api/src/agentprobe_api/auth.py:345-352 | After a harmful loss the tab's own next refresh, or that of a tab opened later, can revoke every session of the user. |
| SessionRefresh.OneTabCanLose | apps/web/src/lib/api/session.ts:22-39 | Such losses are reachable with a single tab, before the server gets to the request and after, by staying and by closing. |
| SessionRefresh.WithoutLocksTheftIsSeen | apps/web/src/lib/api/session.ts:27-28 | Without the lock, two of any number of tabs are taken for theft and every session of the user is revoked. |
| SessionRefresh.LocksOrOneTabExactly | apps/web/src/lib/api/session.ts:22-31 | From any start, some history that loses no response is taken for theft if and only if there is no lock and more than one tab may be open at a time. |
| RateLimit.MemoryTokenBucket.constructor | apps/api/src/agentprobe_api/ratelimit.py:25-35 | Capacity is the limit, and the rate refills it once a window. |
| RateLimit.MemoryTokenBucket.Acquire | apps/api/src/agentprobe_api/ratelimit.py:37-47 | The answer and the whole new table, as the specification has them. |
| RateLimit.MemoryTokenBucket.Prune | apps/api/src/agentprobe_api/ratelimit.py:49-52 | Keeps exactly the buckets used within the time a refill takes. |
| RateLimit.GrantsAreCovered | apps/api/src/agentprobe_api/ratelimit.py:37-44 | Grants never exceed what a bucket holds now and what refills until the end. |
| RateLimit.GrantsAreBounded | apps/api/src/agentprobe_api/ratelimit.py:37-47 | In any stretch of length d of any history one bucket is granted at most capacity + rate d. |
| RateRefusals.RefusedExactly | apps/api/src/agentprobe_api/ratelimit.py:37-47 | A call is refused if and only if, since some earlier call to its bucket, there were more grants than capacity - 1 plus what has refilled since. |
| RateRefusals.BurstIsGranted | apps/api/src/agentprobe_api/ratelimit.py:37-47 | As many calls as the limit says are all let in, however fast they come. |
| RateRefusals.BackendsRefuseExactly | apps/api/src/agentprobe_api/ratelimit.py:37-90 | So for the memory limiter and for the Redis script, on every history. |
| RateLimit.WaitIsLeast | apps/api/src/agentprobe_api/ratelimit.py:41-43 | After the wait a refused caller is told, and no sooner, its next call is granted, whatever others do. |
| RateLimit.HeaderIsLeast | apps/api/src/agentprobe_api/ratelimit.py:94-95 | The Retry-After value is the least positive whole number of seconds that suffices. |
| RateLimit.RefusalIsFree | apps/api/src/agentprobe_api/ratelimit.py:41-43 | A refused call changes no other answer. |
| RateLimit.EquivalentAnswerAlike | apps/api/src/agentprobe_api/ratelimit.py:37-47 | Tables whose levels agree now and later give the same answers on every history. |
| RateLimit.PruneIsEquivalent | apps/api/src/agentprobe_api/ratelimit.py:49-52 | Pruning changes no level, now or later. |
| RateLimit.PruningIsUnobservable | apps/api/src/agentprobe_api/ratelimit.py:45-52 | On every history the pruning limiter answers as one that never forgets. |
| RateLimit.ExpiryIsUnobservable | apps/api/src/agentprobe_api/ratelimit.py:57-75 | On every history the script, whose keys expire, returns 0 exactly when a limiter that never forgets grants, else its wait in whole milliseconds, rounded up. |
| RateLimit.BackendsAgree | apps/api/src/agentprobe_api/ratelimit.py:87-91 | Both backends grant the same calls; the Redis wait is never shorter and at most a millisecond longer. |
| Admission.CheckKeeps | apps/api/src/agentprobe_api/limits.py:63-101 | A check keeps every window within the cap, counting what is admitted but not yet inserted. |
| Admission.InsertKeeps | apps/api/src/agentprobe_api/limits.py:1-6 | Inserting an admitted row changes no window's charge. |
| Admission.WindowsAreCapped | apps/api/src/agentprobe_api/limits.py:63-101 | Over all histories every window holds at most the cap, plus one for each further request between check and insert. |
| Admission.ProtectedWindow | apps/api/src/agentprobe_api/limits.py:22-23 | One request at a time, for the run cap and for the live budget: windows of a length are within the cap in all histories if and only if the length is at most a day less the time from the row's date to its check (or the cap lets nothing, or everything, in). |
| Admission.RefusedExactly | apps/api/src/agentprobe_api/limits.py:63-101 | A request is refused, without a trace, exactly if its user has had the allowed runs of the last 24 hours, or one more live run beside those of the last 24 hours would overrun the budget. |
| EventBus.QueueSubscription.Next | apps/api/src/agentprobe_api/progress.py:42-46 | Takes the oldest event, or nothing. |
| EventBus.InProcessBus.Publish | apps/api/src/agentprobe_api/progress.py:53-55 | Every open subscription of the run gets the event once, last; no other queue changes. |
| EventBus.InProcessBus.Subscribe | apps/api/src/agentprobe_api/progress.py:57-62 | A new empty subscription of that run only. |
| EventBus.InProcessBus.Unsubscribe | apps/api/src/agentprobe_api/progress.py:63-66 | Removes that subscription, and the run's entry with the last one. |
| EventBus.InProcessBus.Close | apps/api/src/agentprobe_api/progress.py:68-69 | No subscription is left. |
| ProgressBus.PublishEvent | apps/api/src/agentprobe_api/progress.py:53-55 | Publishing on the bus is the delivery step of the stream machine. |
| ProgressBus.OpenStream | apps/api/src/agentprobe_api/runs.py:355-355 | Subscribing on the bus is the subscribe step of a stream. |
| ProgressBus.ForwardNext | apps/api/src/agentprobe_api/runs.py:384-393 | One turn of the event loop is the receive step of a stream, and a terminal event closes the subscription. |
| Progress.RunInv | apps/api/src/agentprobe_api/runs.py:353-393 | The stream invariant holds at every moment of every interleaving. |
| Progress.NothingIsMissed | apps/api/src/agentprobe_api/runs.py:353-358 | A stream has forwarded or holds exactly what was published since it subscribed, once and in order. |
| Progress.ReportedAttemptIsSent | apps/api/src/agentprobe_api/queue.py:85-99 | What a process reports of a saved attempt is what it publishes, to the end of the queue of every stream subscribed by then. |
| Progress.EndedStreamsAgree | apps/api/src/agentprobe_api/runs.py:377-391 | Every stream that ended showed the run's final status last and no terminal status before it. |
| Progress.TerminalIsQueued | apps/api/src/agentprobe_api/progress.py:53-55 | Once a terminal event is published every stream still open holds it. |
| Progress.EveryStreamEnds | apps/api/src/agentprobe_api/queue.py:62-70 | Once a run has ended and its announcers, none crashed, are done, every open stream ends by receiving what it holds. |
| Progress.CanEndExactly | apps/api/src/agentprobe_api/queue.py:62-70 | An open stream of an ended run can still end, without a new announcement, if and only if it holds a terminal event or some process has yet to publish one. |
| Progress.CrashLeavesWaiting | apps/api/src/agentprobe_api/queue.py:62-70 | A process that dies between ending the run and announcing it leaves an open stream waiting for ever: a concrete history. |
| Progress.SnapshotFirstWaitsForever | apps/api/src/agentprobe_api/runs.py:354-355 | With the snapshot read before subscribing a stream can wait for ever: a concrete history. |
| Tiling.TilesSound | packages/core/src/agentprobe_core/adapters/http.py:99-110 | What the scan accepts is a row of segments spelling the text. |
| Tiling.TilesComplete | packages/core/src/agentprobe_core/adapters/http.py:99-110 | Every row of segments is accepted as that row. |
| Tiling.StuckAfterTiles | packages/core/src/agentprobe_core/adapters/http.py:101-105 | A scan stops where nothing matches, after segments only. |
| JsonPath.MatchSound | packages/core/src/agentprobe_core/adapters/http.py:85-85 | What the pattern matches is a well-formed segment standing there. |
| JsonPath.MatchComplete | packages/core/src/agentprobe_core/adapters/http.py:85-85 | A well-formed segment, followed by another or by nothing, is what is matched. |
| JsonPath.CompilePath | packages/core/src/agentprobe_core/adapters/http.py:90-111 | The loop computes the compiled path or the refusal the laws below are about. |
| JsonPath.CompilesExactly | packages/core/src/agentprobe_core/adapters/http.py:90-111 | A path compiles to given segments if and only if it is `$` and a row of spellings that mean them. |
| JsonPath.SpellingIsUnique | packages/core/src/agentprobe_core/adapters/http.py:98-110 | No path can be cut into segments in two ways. |
| JsonPath.RefusedWhereItBreaks | packages/core/src/agentprobe_core/adapters/http.py:102-105 | The position in a refusal: everything before it is accepted and no segment starts there. |
| JsonPath.DecimalReads | packages/core/src/agentprobe_core/adapters/http.py:107-108 | Reading a printed whole number gives it back. |
| JsonPath.RoundTrip | packages/core/src/agentprobe_core/adapters/http.py:90-111 | Compiling undoes the canonical printer. |
| JsonPath.ExpressibleExactly | packages/core/src/agentprobe_core/adapters/http.py:85-85 | A list of segments has a spelling if and only if each name avoids one kind of quote. |
| JsonPath.ResolvePath | packages/core/src/agentprobe_core/adapters/http.py:114-124 | The loop resolves as the recursive definition does, on every document. |
| JsonPath.ResolveComposes | packages/core/src/agentprobe_core/adapters/http.py:114-124 | A path followed by another resolves the second in what the first names. |
| JsonPath.NegativeCountsFromTheEnd | packages/core/src/agentprobe_core/adapters/http.py:118-120 | `[-k]` names item n - k of a list of n for k up to n, and nothing beyond. |
| JsonPath.IndexNamesItem | packages/core/src/agentprobe_core/adapters/http.py:113-124 | `[n]` names the item at place n of a list, and nothing of anything else. |
| JsonPath.NameNamesField | packages/core/src/agentprobe_core/adapters/http.py:113-124 | A name names the value of the field with that key of an object, and nothing of anything else. |
| JsonPath.DottedIsQuoted | packages/core/src/agentprobe_core/adapters/http.py:85-109 | A dotted name compiles as the same name in quotes does, wherever it stands. |
| JsonPath.DottedCompiles | packages/core/src/agentprobe_core/adapters/http.py:85-109 | `$.name` compiles to that name. |
| JsonPath.DottedExactly | packages/core/src/agentprobe_core/adapters/http.py:85-85 | Exactly the names of a letter or underscore and then word characters and hyphens can stand after a dot. |
| RequestTemplate.PiecesSpell | packages/core/src/agentprobe_core/adapters/http.py:129-140 | Scanning a string drops and moves nothing. |
| RequestTemplate.FilledLength | packages/core/src/agentprobe_core/adapters/http.py:157-159 | Each placeholder is filled once, whatever the input holds. |
| RequestTemplate.InputStandsVerbatim | packages/core/src/agentprobe_core/adapters/http.py:147-152 | The input stands verbatim where its placeholder stood; placeholders inside it stay literal. |
| RequestTemplate.InjectiveExactly | packages/core/src/agentprobe_core/adapters/http.py:231-232 | Different inputs give different bodies if and only if some string of the template has `{{input}}`. |
| RequestTemplate.AcceptedTemplatesAreInjective | packages/core/src/agentprobe_core/adapters/http.py:223-233 | Every validated template, with fixed documents, is injective in the input. |
| RequestTemplate.ShapeIsKept | packages/core/src/agentprobe_core/adapters/http.py:147-164 | Only a string that is one documents placeholder stops being a string; everything else keeps its shape and keys. |
| RequestTemplate.HoleExactly | packages/core/src/agentprobe_core/adapters/http.py:129-129 | A text starts with a placeholder if and only if it starts with braces around a word, with or without spaces beside it. |
| RequestTemplate.WholePlaceholder | packages/core/src/agentprobe_core/adapters/http.py:153-156 | A string that is exactly one placeholder, with or without spaces inside its braces, becomes the input, or the list of documents. |
| RequestTemplate.PlaceholderInside | packages/core/src/agentprobe_core/adapters/http.py:157-159 | In a longer string the text before a placeholder stands as it is, then what the placeholder stands for, then what the rest becomes. |
| RequestTemplate.OneAmongText | packages/core/src/agentprobe_core/adapters/http.py:157-159 | A string with one placeholder among text becomes that text around the input, or around the joined documents. |
| RequestTemplate.JoinedSplits | packages/core/src/agentprobe_core/adapters/http.py:143-144 | Documents are joined by a blank line. |
| RequestTemplate.JoinedOne | packages/core/src/agentprobe_core/adapters/http.py:143-144 | A document that is a string stands as it is, any other as its JSON. |
| HeaderText.ParseHeaders | apps/web/src/lib/agent-form.ts:86-95 | The loop computes the parse the laws below are about. |
| HeaderText.TrimIsTrimmed | apps/web/src/lib/agent-form.ts:92-92 | Trimming gives a trimmed string and leaves a trimmed one alone. |
| HeaderText.TrimKeepsTheMiddle | apps/web/src/lib/agent-form.ts:83-93 | Trimming takes spaces off both ends and nothing else. |
| HeaderText.BadLineExactly | apps/web/src/lib/agent-form.ts:85-90 | The line refused is the first, counted from 1, that is not blank and has no colon after its first character. |
| HeaderText.Rereads | apps/web/src/lib/agent-form.ts:66-68 | Printing and parsing stored headers trims their values and drops `__proto__`, nothing else. |
| HeaderText.HeadersRoundTripExactly | apps/web/src/lib/agent-form.ts:86-95 | Parsing undoes printing, for stored headers, if and only if every value is trimmed and no header is `__proto__`. |
| HeaderText.ProtoIsLost | apps/web/src/lib/agent-form.ts:92-92 | A header named `__proto__` is lost: the concrete case. |
| AgentForm.UnknownFieldsSurvive | apps/web/src/lib/agent-form.ts:126-147 | A field the form does not know survives any edit that keeps the adapter type. |
| AgentForm.EditsReachTheConfig | apps/web/src/lib/agent-form.ts:126-160 | Every field of an accepted draft reaches the config, whatever was stored before: trimmed, read as a number or parsed, and an empty path as its default or null. |
| AgentForm.AcceptedExactly | apps/web/src/lib/agent-form.ts:104-124 | What the form accepts: a name, a url, headers that parse, whole numbers in range, and a template that parses and holds the placeholder. |
| AgentForm.UnsetIsNew | apps/web/src/lib/agent-form.ts:33-79 | An agent of which nothing is stored is drafted like a new one, but for the three defaults a new one turns on. |
| AgentForm.UnchangedHttp | apps/web/src/lib/agent-form.ts:104-160 | Saving an unchanged HTTP agent: refused for its template exactly when `{{input}}` is not found, else everything stored, with headers as they reread. |
| AgentForm.HttpRoundTripsExactly | apps/web/src/lib/agent-form.ts:104-160 | Saving an HTTP agent unchanged gives back every stored field if and only if its headers survive and its template spells `{{input}}`. |
| AgentForm.McpRoundTripsExactly | apps/web/src/lib/agent-form.ts:135-137 | The same for an MCP agent, if and only if its headers survive. |
| AgentForm.SpacedPlaceholderIsRefused | apps/web/src/lib/agent-form.ts:119-119 | A template with `{{ input }}` passes the server's validator and is refused by the form. |
| FormHost.SomeAgentComesBack | apps/web/src/lib/agent-form.ts:104-160 | Some host meets every law and some stored agent comes back. |
| FormHost.SomeAgentIsRefused | apps/web/src/lib/agent-form.ts:119-119 | Some host meets every law and some stored agent the server accepts is refused. |
| Judging.ExecuteAttempt | packages/core/src/agentprobe_core/runner.py:244-317 | Judgments are the answers of the non-consistency judges in order, cut short only by a spent budget; status and error (a judge error quotes the first such judge and its reason) as they imply; the score times their number is the sum of their scores. |
| Judging.FirstWith | packages/core/src/agentprobe_core/runner.py:307-308 | The first verdict with a status, if any. |
| Judging.FirstCall | packages/core/src/agentprobe_core/runner.py:460-468 | The first call to a tool, if any. |
| Judging.JudgmentSteps | packages/core/src/agentprobe_core/runner.py:445-473 | One anchor for each judgment with a judge, a valid step: the first call of its tool, nothing for latency, else the last output. |
| Judging.ShowTrace | apps/api/src/agentprobe_api/results.py:182-201 | The strict zip fails if and only if an attempt of a known case has more judgments than judges to ask. |
| Judging.ExecutedAttemptsShow | apps/api/src/agentprobe_api/results.py:182-201 | For attempts that were executed it cannot fail, and each judgment stands beside the judge that gave it. |
| Judging.UploadedAttemptMayNotShow | packages/core/src/agentprobe_core/runner.py:486-504 | An uploaded attempt that is in the plan can have a judgment too many: the concrete case. |

## Left out

- The statistics (confidence intervals, `compare_runs`, bootstrap), suite parsing, the judges
  themselves, the LLM client, `with_backoff` and the SSRF guard are not part of this model; a
  judge's answer, an agent's reply and the distinctness of case ids are inputs.
- RunSummary.FinalizeRun: leaves out what the statistics compute (pass rate interval, labels),
  the run's names and clock times, and the case-level judge's own cost, which is added to the
  judge cost and so can differ between two `finalize` deliveries; `started_at` is the first
  result's, not a caller's.
- RunProtocol.StepInv: the broker is a sequence of messages that any delivery may repeat, drop
  with a crash or reorder; acknowledgement timing, `stale_after` and heartbeats are covered by
  letting recovery happen at any moment.
- RunProtocol.StepInv: a job is a fixed sequence of database reads and writes; the traces and
  judgments stored with a row are part of the row, and clustering findings is not modelled.
- RunRecovery.RecoveryEndsTheRun: speaks of a run that recovery noticed and of steps without a
  further crash; that the broker eventually delivers every message is assumed, as is that every
  agent call returns.
- InlineRun.StepInv: one API process, as the source requires; the semaphore that limits
  simultaneous runs and the table of cancel events of `InlineQueue` are not part of this model,
  nor is a failure of `fail_run` itself, which leaves the run to the next recovery.
- WorkerPool.StepInv: `execute_with_retries` is one call; the task group and `asyncio.wait`
  are modelled by the steps they allow, not by the event loop, so a worker may take a few more
  steps between a cancel and its end than it does there. A cancel of the call while it awaits
  its cancelled workers is swallowed, as awaiting them swallows it.
- Ingesting a whole run (`/ci/report`, `insert_results`, `insert_summary`) in one transaction
  would only add easy members beside `save_attempt`.
- Clustering.AgglomerativeCluster: takes the pairwise distance as a parameter; that identical
  vectors have distance 0 is not claimed (zero vectors have distance 1).
- Naming clusters, excerpts and fixes (`_label`, `_parse`, `_in_order`) is not part of this model.
- SessionRefresh.NeverTakenForTheft: no logout in flight and no refresh outside
  `createSessionFetch`; tokens a user holds in other browsers are only affected through
  revocation; the server answers one refresh at a time, and an access token that a probe found
  alive may have died when its answer arrives.
- RateLimit.GrantsAreBounded: the clock does not go backwards (`time.monotonic`, Redis `TIME`)
  and a limit is at least 1: with a limit of 0 the source divides by zero.
- RateLimit.ExpiryIsUnobservable: Redis stores numbers as decimal strings; their rounding is
  not modelled, and one key's script is atomic as Redis makes it.
- Admission.WindowsAreCapped: rows are never deleted, the reserve and the caps do not change
  during a history, and mock runs and unset caps are simply not checked; signups, projects and
  agents have plain counts and would only add easy members.
- Progress.EveryStreamEnds: events are delivered in order by the in-process bus; the Redis
  channel, heartbeats and the text of server-sent events are not part of this model.
- JsonPath.CompilePath: `\w` and `\d` are parameters that agree with ASCII on what the syntax
  uses; the interpreter's limit on the digits of one integer is not modelled.
- RequestTemplate.ShapeIsKept: the JSON encoder that documents are joined with is a parameter,
  and so are `\w` and `\s`; recursion depth is not limited.
- AgentForm.HttpRoundTripsExactly: `trim`, JSON and number conversion are parameters with the
  laws the form relies on, for the values JSON text can hold and the whole numbers the form
  allows; a stored config is one the server validated, so every default is written out and the
  adapter type is kept beside it.
- HeaderText.HeadersRoundTripExactly: headers are listed in JavaScript's own key order (names
  made of digits first), which the parsed object has again.
- Judging.ExecuteAttempt: the judges' evidence and the input shown in reports are left out, and
  time limits are answers like any other.

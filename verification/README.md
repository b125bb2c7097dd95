# Reaper: durable promises and warm worker slots, modelled and proved

Reaper keeps durable promises in three PostgreSQL tables (promises, tasks, waits), runs
deterministic workflows over them by replay, and supervises a pool of warm worker processes.
The project models both parts and proves what they promise over every run.

**The store.** `Store` holds the three tables as maps and every SQL statement as one function on
them: submit calls, submit timer, settle, retry, suspend, process due, delete expired. `StoreLaws`
proves that each keeps the schema's checks and that the fast counter `pending_waits` is always the
number of awaited promises that are pending; `StoreOutcomes` says what each leaves row by row and
when it refuses. `StoreRuns` adds the workers: claim transactions that
stay open, hold rows nobody else sees, and commit or roll back while everything else goes on.
`StoreSafety` proves ownership, settle-once, the retry budget and the absence of stuck graphs over
every run. `Database` is the imperative form: a class whose methods change the tables row by row,
each proved to leave exactly the store its function describes.

**READ COMMITTED.** `ReadCommitted` splits settling and suspending into statement snapshots, row
locks taken one at a time in id order, re-reads of rows locked after a wait, and commits (section
13.2.1 of the PostgreSQL 16 manual). `ReadCommittedLaws` proves that a commit computed from the old
snapshot and the locked rows equals the atomic statement on the latest store, so no wake is lost,
and that the row locks never deadlock. `LostWakeRun` is a run that loses a wake when the separate
lock statement is folded into the settling one.

**Workflows.** A durable function is a deterministic program that, given its results so far,
returns, raises, gathers a group of calls or sleeps (`Programs`). `Workflow` is the whole system:
attempts with a memo and a call index replay such programs over the store, suspend, are
interrupted, commit or roll back. `WorkflowLaws` proves the central law, *durable equals direct*;
`AttemptBound` and `AttemptCount` bound suspensions and attempts by groups; `Replay` proves that
replayed calls never conflict unless an outside submission takes a child's id, and `TakenIdRun` is
a run in which one does; `PromiseIds` proves that child ids parse back. `Execution` is the
imperative form of an attempt: the context object, the task execution that owns a transaction, and
the loops that issue a group.

**A law that fails, and when it holds.** A sleep's fingerprint keeps its `due_at`, so replay relies
on finding the timer in the memo. A retry that is committed after the timer was written and before
the suspension (a local timeout or a retryable error raised in between) keeps the timer but records
no wait on it. The next attempt submits the timer again, due later, meets
`IdempotencyConflictError`, and the call is rejected although plain evaluation gives it a value.
`LostTimerRun` is such a run. `LostTimer` proves exactly when one sleep conflicts, and that no sleep
of a task ever conflicts in a run whose retries of that task commit no freshly written timer.
`LostTimerStays` proves the converse: such a retry loses the timer, a lost timer stays lost while its
task is pending, and every later attempt that reaches its sleep conflicts, unless its clock makes the
timer due at the very same moment.

**The supervisor.** `Reducer` has `ReaperCore` both as a class, method by method, and as functions on
its state; `CoreLaws`, `CoreRuns`, `CoreEffects` and `FairDrain` prove its asserted invariants
inductive, what its effects mean, and its conservation, order and drain laws over runs.
`SkeletonPoolModel`, `SkeletonPoolLaws` and `SkeletonPoolDriver` do the same for the driver whose
effect lists interleave at every await while the kernel reuses file descriptors.

Assumptions. Job ids are not empty. A SPAWNED event carries the number of the spawn it answers,
and each spawn is answered once. A new control descriptor is never one that is still open. Text is
compared as in the C collation. Fingerprints stand for the fields they cover, JSON values are
opaque, and moments are integers supplied by the caller. `Replay`, `LostTimer` and `LostTimerStays`
further take function names without a colon (`NamesOk`), as module and qualified names are, and, for
the task a law is about, that no outside submission takes an id of the form of that task's children
(`LeavesChildren`); any other id may be submitted, with colons or without. Nothing else in the
project needs them.

## Model

| member | source | states |
|---|---|---|
| WorkflowLaws.DurableEqualsDirect | reaper/promise.py:441-638 | in every state reachable by any submissions, suspensions, retries, rollbacks, timeouts, maintenance and collection, a resolved call holds the one value plain recursive evaluation of its function and arguments gives |
| WorkflowLaws.WorldStepKeepsInv | reaper/worker.py:121-175 | each step of the whole system keeps: resolved calls are true, every wait is for a child its waiter issues, and every open attempt's memo, history and call index are what its deterministic run prescribes |
| WorkflowLaws.GatherKeepsAttempt | reaper/promise.py:681-690 | after a gather the attempt remembers rows submitted for exactly its calls, suspends on pending ones only, and passes with values plain evaluation gives |
| WorkflowLaws.SleepKeepsAttempt | reaper/promise.py:747-805 | after a sleep the attempt remembers its own timer, suspends on it while pending, and passes once it has resolved |
| WorkflowLaws.PreloadOk | reaper/tasks/queries/claim.sql:11-23 | the waits preloaded at claim are all children the task issues, with the rows the store shows |
| WorkflowLaws.OtherAttemptSteady | reaper/tasks/__init__.py:171-187 | whatever anyone else does, an open attempt stays well formed: its graph is not collected and terminal rows it read stay |
| Programs.EvaluatesUnique | reaper/promise.py:538-570 | plain evaluation of a call gives at most one value |
| Programs.EvaluatesByTrace | reaper/promise.py:538-570 | plain evaluation gives a value exactly when some history of true results leads the function to return it |
| Programs.HistoriesAgree | reaper/promise.py:681-690 | two histories of true results of one call agree as far as both go |
| Programs.GatherMeans | reaper/promise.py:681-690 | gathering evaluates to the results of the calls in call order, and to nothing else |
| Programs.JoinMeans | reaper/promise.py:692-703 | joining evaluates to v exactly when the joining task evaluates to v on the calls' results |
| Programs.MapReduceMeans | reaper/promise.py:728-745 | map-reduce evaluates to v exactly when the reducer does on the mapped results in input order |
| Issuing.OneGroupPerChild | reaper/promise.py:260-267 | a child id is issued by one group of its task, with one fingerprint; a timer's may differ in the moment it is due and in nothing else |
| Issuing.IssuedCallMatches | reaper/promise.py:470-471 | a memo row found under the id of a call was submitted for that very call |
| AttemptBound.SuspensionsAreBounded | reaper/promise.py:681-690 | a task's committed suspensions are at strictly later groups each time; when its evaluation ends, by returning or by raising, they are at most as many as its groups |
| AttemptCount.AttemptsAreBounded | reaper/worker.py:121-175 | a call's attempts since its creation that were committed and were not failures are at most one more than the groups of its evaluation, when that returns or raises |
| AttemptBound.RecordIsTerminal | reaper/tasks/queries/claim.sql:41-54 | when a task is claimed again, every child of every group up to the last suspension is in the store and terminal |
| AttemptBound.WorkflowsAreNeverStuck | reaper/promise.py:353-356 | in every reachable state, below each pending promise its graph holds a pending timer or a call that awaits nothing |
| Replay.ReplayNeverConflicts | reaper/tasks/__init__.py:50-83 | in every state of every run in which no outside submission takes a child's id of the task, the task's batch of calls raises no idempotency conflict, whatever the clock and the memo |
| Replay.GatherConflictsIff | reaper/tasks/__init__.py:50-83 | in any reachable state a batch of calls conflicts exactly when the claim sees, under an id it sends, other work than the call it sends |
| TakenIdRun.ATakenIdRejectsTheCall | reaper/promise.py:338-345 | a legal run in which an outside submission takes the id of a task's child ends with the task's call rejected although it has a value |
| Replay.AttemptsRepeat | reaper/promise.py:260-273 | two attempts of a task, whatever outcome each has come to, have issued the same requests in the same order as far as both have come, over the groups passed and the group suspended on: the same ids, and for calls the same fingerprints; the moment a timer is due depends on the clock and is left open |
| Replay.OwnChild | reaper/promise.py:260-267 | what a claim sees under an id it issues was submitted by its own task, when no outside submission took a child's id of that task |
| LostTimer.SleepNeverConflicts | reaper/promise.py:761-799 | in runs in which no outside submission takes a child's id of the task and no retry of the task commits a timer written in the same transaction, a sleep's timer is in the memo or not in the store, and never conflicts |
| LostTimer.SleepConflictsIff | reaper/promises/__init__.py:57-72 | in any reachable state a sleep that is not remembered conflicts exactly when its id is stored for anything but this timer at this moment |
| LostTimer.SleepConflictsWhenDueElse | reaper/promises/__init__.py:57-72 | when no outside submission took a child's id of the task, that is exactly when its timer is stored and due at another time |
| LostTimerStays.RetryLosesTimer | reaper/tasks/queries/retry.sql:1-29 | a retry that leaves its task pending commits every timer of its transaction and no wait on it |
| LostTimerStays.LostTimerStaysLost | reaper/tasks/queries/claim.sql:11-23 | over any run that leaves the task pending and not suspended on the timer, the timer stays without a wait and due when it was |
| LostTimerStays.LostTimerConflicts | reaper/promise.py:761-796 | in every reachable state an attempt that reaches the sleep of such a timer at a moment that makes it due at another time does not remember it, and raises |
| LostTimerRun.ALostTimerRejectsTheCall | reaper/promise.py:591-600 | a legal run in which a retry commits a timer without a wait ends with the call rejected although it has a value |
| PromiseIds.IdsParseBack | reaper/promise.py:260-267 | printing a call path and parsing the id below its root gives the path back |
| PromiseIds.ParsedIdsPrintBack | reaper/promise.py:260-267 | every id that parses is the id of the path it parses to |
| PromiseIds.DistinctPathsNeverCollide | reaper/promise.py:260-267 | two call paths below a root share an id exactly when they are equal |
| PromiseIds.ChildIdInjective | reaper/promise.py:811-820 | parent, position and function can be read off a child id, as function names hold no colon |
| PromiseIds.ChildOfIffChildId | reaper/promise.py:260-267 | an id has the form of a child's of a task exactly when it is the id of some child of that task |
| PromiseIds.ChildExtendsParent | reaper/promise.py:265-265 | a child's id strictly extends its parent's |
| Execution.Context.constructor | reaper/promise.py:250-258 | a new context knows exactly the preloaded promises and has issued no id |
| Execution.Context.NextId | reaper/promise.py:260-267 | ids count up from the last one, even when the limit of 1024 refuses the id |
| Execution.Context.Save | reaper/promise.py:272-273 | the memo changes at one id only |
| Execution.Issue | reaper/promise.py:441-520 | the ids of a group in order and the requests the memo does not answer; when a child is refused by depth, count or validation, the requests of the others that were under way; the count goes up for every call, unless the depth refuses them all |
| Execution.Gather | reaper/promise.py:681-690 | the loop leaves the transaction, the memo, the count and the outcome of the attempt's move in the model, also when it raises; once the execution has an outcome nothing is sent |
| Execution.SleepOn | reaper/promise.py:747-805 | the same for a sleep, with its early return for no delay and its number taken when it raises |
| Execution.TakeRows | reaper/promise.py:529-530 | every row is remembered and the pending ids are listed in call order |
| Execution.TaskExecution.constructor | reaper/tasks/__init__.py:174-180 | a new execution is open and keeps what its transaction found in the tables |
| Execution.TaskExecution.Submit | reaper/tasks/__init__.py:199-204 | a finished execution submits nothing; an open one submits the batch in its transaction |
| Execution.TaskExecution.Timer | reaper/tasks/__init__.py:236-241 | the same for a timer |
| Execution.TaskExecution.Settle | reaper/tasks/__init__.py:243-280 | an execution takes one outcome at most, and one that cannot be applied leaves the transaction unchanged and unfinished |
| Execution.TaskExecution.Leave | reaper/tasks/__init__.py:324-346 | the transaction commits exactly when an outcome was applied and nothing was raised; otherwise the tables are what the execution found when it was made |
| ReadCommittedLaws.NoWakeIsLost | reaper/tasks/__init__.py:126-149 | in every interleaving of snapshots, locks, commits and rollbacks each committed counter is the number of committed pending awaited promises |
| ReadCommittedLaws.SettleRefines | reaper/tasks/queries/settle.sql:1-49 | a settlement committed from its old snapshot and the rows read under its locks equals the atomic settlement of the latest store |
| ReadCommittedLaws.SuspendRefines | reaper/waits/queries/suspend_task.sql:5-81 | a suspension committed from the states read under its locks equals the atomic suspension of the latest store |
| ReadCommittedLaws.SettlersNeedNoClaimedTask | reaper/tasks/queries/settle.sql:29-35 | a settler never needs the row lock of a claimed task |
| ReadCommittedLaws.NoDeadlock | reaper/waits/queries/suspend_task.sql:16-25 | no transaction waits, through any chain of others, for itself |
| ReadCommittedLaws.SomeoneCanProceed | reaper/tasks/queries/settle.sql:29-35 | whenever a claim is open some open claim waits for no lock |
| LostWakeRun.WithoutTheLockStatementAWakeIsLost | reaper/tasks/__init__.py:134-137 | a run without the separate lock statement leaves a waiter counting one pending promise while it awaits none |
| IdOrder.IdLessTotal | reaper/tasks/queries/settle.sql:33-33 | any two distinct ids are ordered, so rows are locked in one order |
| StoreSafety.RunKeepsSysInv | reaper/waits/queries/suspend_task.sql:63-81 | every run keeps the whole store invariant: exact counters, schema checks, waits inside one graph, claimed tasks awaiting nothing |
| StoreSafety.OwnedRowsAreFrozen | reaper/tasks/queries/claim.sql:41-54 | while a task is claimed no step but its own commit changes its promise or task row |
| StoreSafety.OneOutcomePerClaim | reaper/tasks/__init__.py:182-187 | a claim commits at most one outcome and changes nothing in the committed store before or without it |
| StoreSafety.RollbackUndoes | reaper/tasks/__init__.py:335-339 | claiming, writing and rolling back gives the system back |
| StoreSafety.TerminalIsFinal | reaper/schema.sql:31-38 | a step keeps a settled promise's row or deletes its whole graph |
| StoreSafety.RunKeepsTerminal | reaper/schema.sql:31-38 | over a run that does not collect its graph a settled promise never changes |
| StoreSafety.RunFailures | reaper/tasks/queries/retry.sql:1-29 | a task's failures are its committed non-final failed attempts since its creation, and stay below its budget |
| StoreSafety.StepFailures | reaper/worker.py:114-116 | one step adds a failure exactly for a committed failed attempt; suspensions and rollbacks add none |
| StoreSafety.NothingIsStuck | reaper/waits/queries/suspend_task.sql:69-81 | when waits go to longer ids, every pending promise's graph holds something that can move |
| StoreSafety.RunIsNeverStuck | reaper/promise.py:687-689 | the same in every state of every run whose tasks await their own children |
| StoreSafety.WriteKeepsOverlay | reaper/tasks/__init__.py:199-204 | a batch written in a transaction adds only fresh pending children, and reading through them gives the statement's result |
| StoreRuns.ViewKeepsInv | reaper/tasks/queries/submit_calls.sql:21-55 | what a transaction sees satisfies the store invariant |
| StoreRuns.MaintainFreezes | reaper/maintenance/queries/process_due.sql:1-33 | a maintenance batch changes no row of a claimed task |
| StoreLaws.WokenIsExact | reaper/tasks/queries/settle.sql:37-49 | a waiter's counter falls by exactly the number of its awaited promises that settled, so flooring at zero and skipping zero rows never matter |
| StoreLaws.WakesWithTheLastAwaited | reaper/tasks/queries/settle.sql:37-49 | a suspended task reaches zero exactly when its last pending awaited promise settles, and becomes available then |
| StoreOutcomes.SettleOutcome | reaper/tasks/queries/settle.sql:1-49 | settling is refused exactly when the task or its pending promise is gone; otherwise that promise holds the outcome, that task and its waits go, each waiter's counter falls by one and it becomes available at zero, and no other row or column changes |
| StoreOutcomes.SuspendOutcome | reaper/waits/__init__.py:14-23 | which of the three errors is raised and when; otherwise exactly the requested waits are added, the counter is the number of them pending, the task is available now, and no other row or column changes |
| StoreOutcomes.DueOutcome | reaper/maintenance/queries/process_due.sql:35-97 | due timers resolve with null, expired calls time out and lose their tasks with the waits those hold, each remaining counter falls by the number of its awaited promises that settled and its task becomes available at zero, and no other row or column changes |
| StoreLaws.SettleKeepsInv | reaper/tasks/queries/settle.sql:1-49 | settling keeps the store invariant |
| StoreLaws.SuspendKeepsInv | reaper/waits/queries/suspend_task.sql:1-81 | suspending a task that awaits nothing keeps the store invariant |
| StoreLaws.SuspendCounts | reaper/waits/queries/suspend_task.sql:63-81 | after suspending, a task's pending awaited promises are exactly the requested ones that are pending |
| StoreLaws.RetryKeepsInv | reaper/tasks/queries/retry.sql:1-70 | counting a failure, or rejecting on the last one, keeps the store invariant |
| StoreLaws.RetryRejectsAsSettle | reaper/tasks/queries/retry.sql:24-70 | the failure that spends the budget rejects and wakes exactly as a rejection settlement; an earlier one changes the failure count and the time only |
| StoreLaws.ProcessDueKeepsInv | reaper/maintenance/queries/process_due.sql:35-97 | resolving timers and timing out calls in one batch keeps the store invariant, whichever of the two writes to a doubly touched task row takes effect |
| StoreLaws.DeleteExpiredTakesWholeGraphs | reaper/maintenance/queries/delete_expired.sql:1-24 | collection deletes whole finished graphs, no pending promise, leaves no dangling row and touches no other graph |
| StoreLaws.DeleteExpiredKeepsInv | reaper/schema.sql:83-94 | collection keeps the store invariant |
| StoreLaws.SubmitCallsKeepsInv | reaper/tasks/queries/submit_calls.sql:21-105 | submitting valid calls keeps the store invariant, also when it reports a conflict |
| StoreLaws.SubmitTimerKeepsInv | reaper/promises/queries/submit_timer.sql:1-18 | submitting a valid timer keeps the store invariant |
| StoreLaws.SubmitCreatesOnlyTheAbsent | reaper/tasks/__init__.py:50-83 | rows come back in request order with the requested fingerprints; one promise and task appear per absent id and no row that was there changes |
| StoreLaws.SubmitIsIdempotent | reaper/tasks/__init__.py:50-83 | a matching batch submitted any number of times leaves the store and returns the rows of submitting it once |
| StoreLaws.ConflictingCallChangesNothing | reaper/tasks/__init__.py:80-82 | one call under a taken id is an error exactly when the fingerprint differs, and leaves the store unchanged |
| StoreLaws.ConflictingTimerChangesNothing | reaper/promises/__init__.py:57-72 | the same for a timer |
| StoreLaws.FingerprintIgnoresTimes | reaper/tasks/models.py:68-74 | two calls share a fingerprint exactly when they differ in submission times and, below a root, retention only |
| Database.Tables.Claim | reaper/tasks/queries/claim.sql:39-54 | the returned task is ready and ahead of every other ready one by priority, time and id; none is returned only when none is ready |
| Database.Tables.SubmitCalls | reaper/tasks/queries/submit_calls.sql:21-105 | inserting row by row and reading back in order is the batch submission, error cases included |
| Database.Tables.SubmitTimer | reaper/promises/queries/submit_timer.sql:1-18 | the timer insertion, error cases included |
| Database.Tables.CountChanges | reaper/tasks/queries/settle.sql:20-27 | one count per waiter of its awaited promises that settle, and none for others |
| Database.Tables.WakeWaiters | reaper/tasks/queries/settle.sql:37-49 | each counted row is lowered and woken as one settlement of that many promises, and no other row changes |
| Database.Tables.SettleTask | reaper/tasks/queries/settle.sql:1-49 | the settlement, or its error with nothing changed |
| Database.Tables.RetryTask | reaper/tasks/queries/retry.sql:1-70 | the retry, with its reply, or its error with nothing changed |
| Database.Tables.SuspendTask | reaper/waits/__init__.py:14-23 | the suspension, or the first of its three errors with nothing changed |
| Database.Tables.CountPending | reaper/waits/queries/suspend_task.sql:63-67 | the number of awaited promises that are pending |
| Database.Tables.ProcessDue | reaper/maintenance/queries/process_due.sql:35-97 | the maintenance batch |
| Database.Tables.DeleteExpired | reaper/maintenance/queries/delete_expired.sql:21-24 | deleting roots one by one with their cascades is the batch deletion |
| Reducer.ReaperCore.constructor | reaper/control.py:100-110 | a new core is the initial state and satisfies the invariant |
| Reducer.ReaperCore.Apply | reaper/control.py:112-137 | one event leaves the state and returns the effects of its transition followed by a dispatch |
| Reducer.ReaperCore.HandleSpawned | reaper/control.py:155-167 | the whole state and effects of a SPAWNED event: a stale or late process is discarded, a new one starts and the pool refills |
| Reducer.ReaperCore.HandleSubmit | reaper/control.py:181-188 | the queue grows by the job exactly when it is accepted |
| Reducer.ReaperCore.HandleResult | reaper/control.py:190-207 | only the running slot with that job becomes idle, with one RESOLVE or FAIL |
| Reducer.ReaperCore.HandleLost | reaper/control.py:209-223 | the live slot goes, its process is torn down, and its job fails |
| Reducer.ReaperCore.HandleClose | reaper/control.py:233-255 | the queue and the running jobs fail, every slot is asked to stop, and no spawn stays pending |
| Reducer.ReaperCore.FillMissing | reaper/control.py:265-273 | the missing spawns are requested under the next numbers |
| Reducer.ReaperCore.DispatchQueue | reaper/control.py:275-291 | the in-place loop over the slots is the dispatch of the queue to idle slots in order |
| CoreLaws.ReduceKeepsInv | reaper/control.py:112-153 | every well-formed event keeps the invariant, with no idle slot while work is queued |
| CoreLaws.InvImpliesAsserted | reaper/control.py:139-153 | the invariant implies the six run-time asserts |
| CoreLaws.StaleMessageIsNoOp | reaper/control.py:293-299 | a READY, RESULT, EOF or SEND_FAILED changes nothing and emits nothing exactly when it does not speak for a live slot in the right state |
| CoreLaws.ReduceConservesJob | reaper/control.py:181-223 | for each job, held before plus accepted equals held after plus finished |
| CoreLaws.DispatchFifo | reaper/control.py:275-291 | the jobs sent followed by the queue left are the queue |
| CoreLaws.DispatchWorks | reaper/control.py:275-291 | after a dispatch the queue is empty or no slot is idle |
| CoreEffects.ReduceEndsRightly | reaper/control.py:190-223 | a job is resolved only by an accepting result of the worker running it, and failed only by a refusing one, by that worker's death or by closing, each with its true reason |
| CoreEffects.SentJobsRun | reaper/control.py:275-291 | every SEND_RUN goes to a slot that from then on runs that very job |
| CoreEffects.RunningMeansSent | reaper/control.py:275-291 | a slot runs a job after an event only if it ran it before or is sent it by this event |
| CoreEffects.CloseStopsAll | reaper/control.py:233-255 | the first CLOSE asks every live process to stop once, in table order, and empties its slot; a later one changes nothing and emits nothing |
| CoreEffects.OnlyTheDeadlineKills | reaper/control.py:257-263 | processes are killed only at the deadline of a closing pool, and then every live one is, once each in table order |
| CoreRuns.RunConservesJob | reaper/control.py:181-255 | over every run accepted submits are RESOLVE plus FAIL effects plus one if queued or running |
| CoreRuns.RunFifo | reaper/control.py:181-291 | over every run the jobs sent, then the queue or the jobs failed from it at close, are the accepted jobs in order |
| CoreRuns.ClosedRunIsQuiet | reaper/control.py:233-255 | after CLOSE nothing is accepted, sent or spawned |
| CoreRuns.RunSpawns | reaper/control.py:265-273 | the spawn numbers of a run are consecutive, and live plus pending never exceeds the target |
| CoreRuns.FillReachesTarget | reaper/control.py:265-273 | after START or RECOVER while open, live plus pending is the target |
| CoreRuns.RunConservesProcess | reaper/control.py:155-231 | each identity that arrived is live or has received exactly one effect of each teardown kind |
| FairDrain.FairDrainBound | tests/test_hypothesis_dst.py:25-48 | from any open state with live slots and no pending spawn, as many fair rounds as queue, slots and target together leave every slot idle and the queue empty |
| FairDrain.RoundShrinks | reaper/control.py:174-207 | a fair round lowers queue plus twice starting plus running |
| SkeletonPoolDriver.SkeletonPool.constructor | reaper/pool.py:1514-1527 | a new pool is the initial one and satisfies the invariant |
| SkeletonPoolDriver.SkeletonPool.Feed | reaper/pool.py:1230-1234 | an outside event is one step of the model and starts a new effect list |
| SkeletonPoolDriver.SkeletonPool.ReceiveProcess | reaper/pool.py:700-714 | a process arriving on any descriptor that is not open is one step of the model |
| SkeletonPoolDriver.SkeletonPool.ReportProcess | reaper/pool.py:1255-1261 | reporting it to the reducer is one step of the model |
| SkeletonPoolDriver.SkeletonPool.ReportFailure | reaper/pool.py:1236-1254 | a failed spawn is one step of the model |
| SkeletonPoolDriver.SkeletonPool.DropIdentity | reaper/pool.py:1507-1512 | the slot goes only if it is this identity's, which becomes retired |
| SkeletonPoolDriver.SkeletonPool.RunList | reaper/pool.py:1230-1383 | running a list alone to its end keeps the invariant and empties the list |
| SkeletonPoolLaws.NextKeepsInv | reaper/pool.py:1230-1383 | every step of any number of interleaved lists keeps the agreement of tables, devices and reducer |
| SkeletonPoolLaws.DrainedPoolAgrees | reaper/pool.py:1507-1527 | once all lists have drained the pool's slots are the reducer's, nothing is retired and every dead process is closed and reaped |
| SkeletonPoolLaws.LiveIsNeverTornDown | reaper/pool.py:1514-1520 | a live identity keeps its slot and open device, and no pending effect would tear it down, whatever descriptors are reused |
| SkeletonPoolLaws.LookFinds | reaper/pool.py:1514-1520 | a teardown effect finds its own identity, which is neither live nor new, and is the next of its four |
| SkeletonPoolLaws.ActTouchesOnlyItsOwn | reaper/pool.py:1264-1380 | acting on an identity changes no other identity's device, slot or retirement |
| SkeletonPoolLaws.FreshIdentity | reaper/pool.py:700-714 | a process on a reused descriptor is a new identity that no table or list knows |
| SkeletonPoolModel.ReduceTears | reaper/control.py:225-231 | an event emits the four teardown effects, in order, for the identity it tears down and for no other |

## Left out

- `done` and `failed` of the reducer: no transition writes them.
- `ControlView`, `resolve`, `fail` and the dictionaries of jobs and results: bookkeeping of futures.
- SEND_RUN, SEND_STOP and KILL: the pool model has their slot lookups, not their messages or signals.
- Cancellation inside `drive`, and the clearing of slots and jobs at the end of a shutdown.
- Process creation, pipes, signals, heartbeats, cgroups, the CLI, settings and logging: input and output.
- LISTEN and NOTIFY: only a hint to poll.
- READ COMMITTED for PROCESS_DUE and RETRY: each is one atomic step; it takes part in the fine-grained machine only when the rows it changes are not locked by others.
- Foreign-key and index locks, lock, statement and idle timeouts, and the server's deadlock detector: the engine's own behaviour.
- The size and order of maintenance and collection batches: any subset of the due timers, of the expired calls that no worker has claimed, and of the finished roots may be taken.
- `first`: its answer depends on the order of settlement, so it has no direct evaluation.
- Workflows that catch a suspension or a child's error, gather a promise without reading its result, or sleep beside other calls.
- Programs.JoinMeans: joined calls are read one after another in the source; a failed one raises, which the model takes as raising once all are terminal.
- Execution.TaskExecution.Settle: the coalescing of concurrent submissions and the operation lock are not modelled; a batch is one statement.
- The event loop's choice of which requests of a refused group are under way when the refusal ends the attempt: a parameter of the step and of the loop, free in every theorem.
- Octet limits, key formats, time zones and rounding of times.
- The topic queues' notifications and the per-claim timeouts of the claim statement.

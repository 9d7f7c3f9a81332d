# Verified model of the task proxy

This project models the life of a task in the proxy - creation, dispatch, executor callbacks,
cancellation, timeout sweep, retention, webhook and SSE delivery - and proves what holds in every
run, whatever interleaves, crashes, expires or gets lost. `dafny verify dfyconfig.toml` checks it.

One step of a state machine is one Redis command or script, one SQL statement or commit, one HTTP
reply, or one synchronous callback. Any number of requests, workers, sweeps and streams take steps
in any order, and any of them may stop between two steps. Clocks, jitter, HTTP replies and the
rows a LIMIT picks are parameters or arbitrary choices, so each theorem holds for all of them.

| file | what it holds |
|---|---|
| `Wrappers.dfy`, `Collections.dfy` | optional values; minimum, maximum, sizes of finite sets |
| `Schema.dfy` | task rows with their CHECK, conditional updates, the event log and its queries |
| `HttpRetry.dfy` | the retry loop against a recursive specification over the reply trace; backoff bounds |
| `Idempotency.dfy`, `Creation.dfy`, `TasksService.dfy` | the two-phase slot, the creation protocol with faults, and `create` as a run of it |
| `CreationBounds.dfy` | runs that reach the protocol's bounds |
| `Lifecycle.dfy`, `LifecycleTheorems.dfy` | one task under every participant: the machine, its inductive invariant, the safety theorems |
| `RowHistory.dfy` | which columns of a row each step may change, and the deadlines and orderings that follow |
| `TerminalEvents.dfy` | which terminal rows have their terminal event, and which can still get it |
| `Proxy.dfy` | the whole system; every task of every run projects to a behavior of the one-task machine |
| `PostsPerKey.dfy` | creation and execution joined: requests sent per idempotency key |
| `Database.dfy`, `Services.dfy` | the repositories, services and workers as imperative code, specified column by column |
| `MachineRuns.dfy` | each of their calls is a run of the one-task machine |
| `Sse.dfy`, `SseService.dfy` | one connection as a class with its callbacks; order, end, overflow; lookup and history query |
| `SseRefinement.dfy`, `SseSessions.dfy` | when a connection, and a client over any number of them, reads "the log up to the first terminal event" |
| `StreamRefinement.dfy` | the same of every stream of the running system |
| `Maintenance.dfy` | the sweep loop and the retention loop |

Reconnection follows the Last-Event-ID rule in section 9.2.4 of the WHATWG HTML Living Standard.

## Where the code differs from its documentation

The model follows the code; each item below is a theorem or an example.

- Timeout of PENDING tasks. `src/modules/tasks/tasks.service.ts:28-30`, ADR-003 and the operations
  guide say the sweeper eventually fails an orphaned PENDING task. The sweep does select it, but
  the CHECK rejects FAILED without a `processingStartedAt`, and the whole batch rolls back
  (`Proxy.BatchAcceptedIffNoPending`). If all expired rows fit one batch and one of them is
  PENDING, the job throws and sweeps nothing (`Maintenance.TimeoutSweeper.Process`).
- Revert to PENDING. `docs/ARCHITECTURE.md:109` and ADR-007 describe a revert and retry. `post`
  throws only its own two error kinds, so that branch is never taken and no task returns to
  PENDING (`HttpRetry.ThrowsOnlyItsOwnErrors`, `LifecycleTheorems.SingleDispatch`).
- A dispatch failure writes FAILED and no event, and a result request that dies between its two
  transactions leaves a COMPLETED or FAILED row without one
  (`TerminalEvents.DispatchFailureLeavesNoEvent`, `TerminalEvents.LostResultLeavesNoEvent`). Such
  a task never gets its event and no stream on it ever ends by itself
  (`TerminalEvents.SilencedForGood`). "At most one terminal event" is what holds of all tasks;
  `TerminalEvents.TerminalRowHasEventIff` says exactly which terminal rows have theirs, and
  `TerminalEvents.EventStillPossibleIff` which of the others still can.
- A failure without a status and without a known network code ends the retry loop and drops the
  status seen before (`HttpRetry.DroppedStatusExample`; exactly when:
  `HttpRetry.ReportsMostRecentStatusIff`).
- That delays never decrease needs a base of at least 199 ms or a cap of at most twice the base
  (`HttpRetry.DelaysNeverDecreaseIff`).
- "Guarantee no missed events" (`src/modules/delivery/sse.service.ts:125`) does not hold of every
  run. The subscription is not awaited, and one that becomes active after the snapshot loses
  events (`SseRefinement.LateSubscriptionLeavesGap`); publishing is not part of the commit, and
  events published in the wrong order are lost too (`SseRefinement.SwapLeavesGap`). For any
  channel, the output has no gap if and only if no live event skips one
  (`SseRefinement.GapFreeIff`, `StreamRefinement.StreamGapFreeIff`); what that means for late,
  lossy and reordering channels follows from it.
- ADR-003 says a key can be reused for a new task after 24 hours. A call that finds the slot free
  creates its own task if and only if no row holds the key, so it is the deletion of the row that
  frees a key (`TasksService.CreatesNewTaskIff`, `TasksService.ExpiredKeyCreatesNothing`).
- A failed commit is called not critical. Until the slot expires the key then answers 409, and
  afterwards it fails: a second call gives the same response if and only if the slot was there
  before or the commit got through (`TasksService.SameResponseIff`).
- A commit that lands after its slot has expired writes a key without a TTL
  (`Idempotency.LateCommitNeverExpires`, `CreationBounds.ExpiryLeavesEternalSlot`); without an
  expiry no run has such a slot (`Creation.UnexpiredSlotHasTtl`).
- The empty key takes no slot but is under the unique index, so a second creation with it fails
  instead of returning the first task (`TasksService.EmptyKeyIsNotIdempotent`).
- An enqueue that reports failure but leaves its job lets one key be dispatched once more.
  `Creation.DispatchedPerKey` bounds the dispatches by one more than such jobs,
  `CreationBounds.DispatchBoundIsTight` reaches the bound for every number of them, and
  `PostsPerKey.PostsPerKey` carries it down to the requests sent.
- ADR-006 stops the sweep at a batch below 500; the code stops at an empty one.

## Model

| member | source | states |
|---|---|---|
| Schema.CheckRejectsExactlyUnclaimed | src/modules/tasks/schemas/tasks.sql.ts:126-144 | an update of an in-flight row violates the CHECK exactly when it completes or fails a PENDING row; otherwise the new row satisfies it |
| Schema.NewRow | src/modules/tasks/tasks.service.ts:69-79 | a created row satisfies every constraint and is in flight (its columns: TasksService.TasksService.Create) |
| Schema.MaxSeq | src/modules/delivery/events.repository.ts:47-52 | COALESCE(MAX(seq), 0): an upper bound that is attained, or 0 |
| Schema.MaxSeqIsLength | src/modules/delivery/events.repository.ts:47-52 | on a log numbered 1..n it is n, so MAX + 1 continues the numbering |
| Schema.FindEventsSinceMembers | src/modules/delivery/events.repository.ts:70-78 | the query returns exactly the events above afterSeq |
| Schema.FindEventsSinceOrdered | src/modules/delivery/events.repository.ts:70-78 | and in seq order |
| Schema.FindEventsSinceIsSuffix | src/modules/delivery/events.repository.ts:70-78 | on a contiguous log it is the suffix after afterSeq |
| HttpRetry.Post | libs/http-retry/http-retry.service.ts:61-114 | between 1 and `attempts` calls, stopping at the first success or final failure, with exactly the outcome of the recursive specification over the replies and the specified delays between calls |
| HttpRetry.OutcomeByLastReply | libs/http-retry/http-retry.service.ts:84-113 | the outcome by the last reply: its data, its status if no retry can fix it, or a failed dispatch, with the most recent status only when the attempts ran out |
| HttpRetry.MostRecentStatusIsLast | libs/http-retry/http-retry.service.ts:88-91 | the status reported then is that of a reply after which none carried one |
| HttpRetry.OutcomeIsDetermined | libs/http-retry/http-retry.service.ts:77-113 | for any replies the specification stops at one point only, so it fixes the number of calls and the outcome |
| HttpRetry.ThrowsOnlyItsOwnErrors | libs/http-retry/http-retry.service.ts:93-113 | no trace makes the loop throw a third kind of error |
| HttpRetry.ReportsMostRecentStatusIff | libs/http-retry/http-retry.service.ts:88-113 | a failed dispatch reports the most recent HTTP status seen if and only if its last failure was a retryable one or no earlier call had a status |
| HttpRetry.DroppedStatusExample | libs/http-retry/http-retry.service.ts:97-100 | 503, then an unknown error: the 503 is not reported |
| HttpRetry.BackoffDoubles | libs/http-retry/http-retry.service.ts:36-44 | below the cap the first delay is the base and each next one twice the last; jitter is added, and the cap is the largest delay |
| HttpRetry.DelaysNeverDecreaseIff | libs/http-retry/http-retry.service.ts:36-44 | delays never decrease for any jitter if and only if base >= 199 or the cap is at most twice the base |
| HttpRetry.TotalSleepWithinSeries | libs/http-retry/http-retry.service.ts:42-44 | total sleep is at most base * (2^n - 1) + 199 * n over n delays |
| HttpRetry.TotalSleepWithinCap | libs/http-retry/http-retry.service.ts:42-44 | and at most n times the cap |
| Idempotency.IdempotencyService.OccupySlot | libs/idempotency/idempotency.service.ts:39-61 | acquired exactly when the slot was free, pending exactly when it holds the sentinel, and otherwise the id it holds; only an acquisition changes anything |
| Idempotency.IdempotencyService.CommitResult | libs/idempotency/idempotency.service.ts:64-69 | the slot holds the id and keeps its TTL, if it had one, whoever owned it |
| Idempotency.IdempotencyService.ReleaseSlot | libs/idempotency/idempotency.service.ts:72-76 | the slot is free, whoever owned it |
| Idempotency.ReleaseUndoesOccupy | libs/idempotency/idempotency.service.ts:22-76 | occupying a free slot and releasing it leaves no trace |
| Idempotency.LateCommitNeverExpires | libs/idempotency/idempotency.service.ts:64-69 | a committed slot never expires if and only if there was no slot with a TTL to overwrite |
| Creation.BehaviorInv | src/modules/tasks/tasks.service.ts:43-134 | the inductive invariant over slots, rows, jobs and every creator's position holds in every reachable state |
| Creation.BehaviorLater | src/modules/tasks/tasks.service.ts:90-119 | a row whose dispatch was enqueued is never deleted by a rollback |
| Creation.CreationAgreement | src/modules/tasks/tasks.service.ts:43-134 | any two successful responses for one key carry the same id, which still names a row with that key whose dispatch was enqueued, under crashes, expiries, lost commits and releases, and failed rollbacks |
| Creation.SlotValueIsStable | libs/idempotency/idempotency.service.ts:63-76 | all ids a key's slot ever holds are the same one, even across expiries and commits or releases by former owners |
| Creation.DispatchedPerKey | src/modules/tasks/tasks.service.ts:90-119 | of the tasks ever dispatched for a key at most one was properly enqueued; the rest are jobs left by enqueues that reported failure |
| CreationBounds.DispatchBoundIsTight | src/modules/tasks/tasks.service.ts:90-119 | for every n, a run with n such jobs dispatches n + 1 tasks of the key |
| PostsPerKey.StepKeepsJointInv | src/modules/executor/workers/dispatch.processor.ts:67-80 | with creation and execution joined, the table is the same in both and every claimed task was dispatched |
| PostsPerKey.PostsPerKey | src/modules/executor/workers/dispatch.processor.ts:82-88 | over a whole run, all tasks ever created with one key together send at most three POSTs, and three more per job left by a failed enqueue |
| PostsPerKey.TotalPostsAdds | src/modules/executor/workers/dispatch.processor.ts:82-88 | the total in that statement is the sum over all of the tasks |
| Creation.SlotMutualExclusion | libs/idempotency/idempotency.service.ts:39-76 | concurrent holders of a slot never outnumber its expiries by more than one |
| CreationBounds.HoldersBoundIsTight | libs/idempotency/idempotency.service.ts:39-76 | for every n, a run with n expiries and n + 1 concurrent holders |
| Creation.UnexpiredSlotHasTtl | libs/idempotency/idempotency.service.ts:63-69 | in any run, a slot that has never expired has a TTL: a commit finds the one it keeps |
| CreationBounds.ExpiryLeavesEternalSlot | libs/idempotency/idempotency.service.ts:63-69 | one expiry between occupy and commit leaves a slot that can never expire |
| Creation.WithoutExpiry | libs/idempotency/idempotency.service.ts:39-76 | without expiry: one holder at most, and a slot that holds an id is never changed again |
| TasksService.TasksService.Insert | src/modules/tasks/tasks.service.ts:69-79 | the INSERT fails on a taken key, the empty string included, and otherwise adds the new row and no other |
| TasksService.TasksService.Enqueue | src/modules/tasks/tasks.service.ts:91-98 | an enqueue may fail before or after the job exists |
| TasksService.TasksService.ReleaseQuietly | src/modules/tasks/tasks.service.ts:83-85 | a failed release changes nothing and is not rethrown |
| TasksService.TasksService.InsertAndEnqueue | src/modules/tasks/tasks.service.ts:67-134 | the part from the INSERT on, with both rollbacks, ends as the protocol does from there |
| TasksService.TasksService.Create | src/modules/tasks/tasks.service.ts:43-134 | the answer by key, slot, table and faults: 409 exactly while the slot holds the sentinel, the id in the slot if it holds one, the new id, or an error; the slots, the row with its columns and the job left behind in each case; and all of it a run of the protocol to its end |
| TasksService.CreateByCases | src/modules/tasks/tasks.service.ts:43-134 | running the protocol to its end comes to that case analysis, for every key, slot, table and combination of faults |
| TasksService.CreateIsARun | src/modules/tasks/tasks.service.ts:43-134 | an uninterrupted call extends any run of the protocol to another one, so every protocol theorem applies to it |
| TasksService.FailedCreateLeavesNoTrace | src/modules/tasks/tasks.service.ts:80-119 | a creation that fails and whose rollback gets through leaves slots, rows and queue exactly as they were |
| TasksService.SecondCreateIsANoOp | src/modules/tasks/tasks.service.ts:46-65 | after a committed creation, a second call with the key returns the same id and changes nothing |
| TasksService.SameResponseIff | src/modules/tasks/tasks.service.ts:43-134 | of two calls, the first answered and the second without fault, both give the same response if and only if the key is not empty and the slot was taken before or the commit got through |
| TasksService.CreatesNewTaskIff | src/modules/tasks/tasks.service.ts:43-134 | on a free slot a call creates its own task if and only if its effects succeed and no row holds the key |
| TasksService.ExpiredKeyCreatesNothing | src/modules/tasks/tasks.service.ts:67-88 | after the slot has expired, a key that still has a row creates nothing: the call fails, tables and queue unchanged |
| TasksService.EmptyKeyIsNotIdempotent | src/modules/tasks/tasks.service.ts:46-88 | a second creation with the empty key always fails |
| LifecycleTheorems.StepKeepsInv | src/modules/executor/executor.service.ts:29-93 | every step of every participant keeps the one-task invariant |
| LifecycleTheorems.StepIsLater | src/modules/tasks/tasks.repository.ts:33-90 | no step changes an outcome, forgets an event, revives a deleted row or touches an ended stream |
| LifecycleTheorems.OtherRemovesNothing | src/modules/tasks/tasks.repository.ts:29-35 | events disappear only through retention, rows only through retention and the rollback of a creation, publications never |
| LifecycleTheorems.LifecycleSafety | src/modules/tasks/schemas/tasks.sql.ts:126-144 | every reachable row satisfies the CHECK and has exactly the outcome columns of its status; a terminal row keeps status, result and error |
| LifecycleTheorems.DeletionIsFinal | src/modules/tasks/tasks.repository.ts:33-35 | no later update, progress or result brings a deleted row back |
| RowHistory.EveryRowStep | src/modules/tasks/tasks.repository.ts:37-90 | every step of every run changes a row in one of five ways, column by column: progress, claim with a new deadline, completion, failure, cancellation |
| RowHistory.RowsStayTheSame | src/modules/tasks/schemas/tasks.sql.ts:49-103 | key, webhook, timeout and creation time never change; start and deadline never change after the claim; of a terminal row only the progress figure can |
| RowHistory.DeadlineOfEveryRow | src/modules/executor/workers/dispatch.processor.ts:68-73 | a PROCESSING row has its deadline timeoutSeconds after its claim; a PENDING row still has the one it was created with |
| RowHistory.SweptRowsWereLate | src/modules/maintenance/maintenance.repository.ts:48-67 | a row failed by the sweep carries BUSINESS_TIMEOUT, and its deadline was before the time it was failed at |
| RowHistory.NothingBeforeTheClaim | src/modules/executor/guards/callback-auth.guard.ts:36-49 | until a task is claimed its row is PENDING or CANCELLED and its log holds at most the cancellation: the guard lets no callback through |
| LifecycleTheorems.TerminalEventAgreement | src/modules/executor/executor.service.ts:29-79 | over a task's whole history at most one terminal event is committed, and while the row exists the event's type and contents are the row's, under races of result, cancel, sweep and dispatch failure |
| TerminalEvents.WhoCommits | src/modules/executor/executor.service.ts:46-50 | a terminal event is committed only by a cancellation, a sweep, or the result request that won the row |
| TerminalEvents.TerminalRowHasEventIff | src/modules/executor/executor.service.ts:29-69 | a terminal row has its terminal event if and only if it was cancelled, swept, or finished by a result request that committed its event |
| TerminalEvents.SilencedForGood | src/modules/executor/workers/dispatch.processor.ts:91-102 | after a dispatch failure, or once a winning result request is gone without its event, no terminal event is ever logged and no stream ever completes |
| TerminalEvents.DispatchFailureIsForGood | src/modules/executor/workers/dispatch.processor.ts:91-102 | in particular no stream of a task that failed in dispatch ever completes |
| TerminalEvents.EventStillPossibleIff | src/modules/executor/executor.service.ts:46-68 | a terminal row without its event gets it in some continuation if and only if it is not silenced |
| TerminalEvents.DispatchFailureLeavesNoEvent | src/modules/executor/workers/dispatch.processor.ts:91-102 | a reachable FAILED row with an empty log |
| TerminalEvents.LostResultLeavesNoEvent | src/modules/executor/executor.service.ts:31-50 | a reachable COMPLETED row with an empty log and every request ended |
| LifecycleTheorems.SequenceContiguity | src/modules/delivery/schemas/events.sql.ts:64 | while a task exists, its committed seqs are exactly 1..n in commit order |
| LifecycleTheorems.LogGrows | src/modules/delivery/events.repository.ts:12-18 | the log of an existing task only ever grows at its end |
| LifecycleTheorems.LockedInsertConflictsIffSwept | src/modules/delivery/events.repository.ts:36-67 | an insert under the advisory lock finds its seq taken exactly when a sweep committed that seq since; lock holders never conflict with each other |
| LifecycleTheorems.SweepCommitsIffReadIsFresh | src/modules/maintenance/maintenance.repository.ts:76-99 | the lockless MAX + 1 commits exactly when nothing was logged since it was read |
| LifecycleTheorems.SingleDispatch | src/modules/executor/workers/dispatch.processor.ts:67-117 | under any redelivery and any crash: one claim, three POSTs at most in all, and never PENDING again |
| LifecycleTheorems.WebhookConsistency | src/modules/delivery/workers/webhook.processor.ts:59-88 | at most one webhook job, by the result that won; every payload carries exactly the outcome that result wrote: COMPLETED with only its data, or FAILED with only its error |
| LifecycleTheorems.StreamsAreSound | src/modules/delivery/sse.service.ts:82-159 | in the running system, each stream emits only committed events, ids strictly increasing, nothing behind a terminal event |
| LifecycleTheorems.DeliveredTerminalIsDurable | src/modules/delivery/sse.service.ts:101-107 | once a stream has delivered a terminal event, the row holds that outcome then and ever after |
| Proxy.LifeIsBehavior | src/modules/maintenance/maintenance.repository.ts:48-106 | in any run of the system, batch jobs included, what happens to one task is a behavior of the one-task machine |
| Proxy.EveryTaskInRun | src/modules/executor/executor.service.ts:29-93 | all one-task safety results together, for every task at any two moments of any run of the system |
| Proxy.BatchAcceptedIffNoPending | src/modules/maintenance/maintenance.repository.ts:48-67 | the sweep's UPDATE takes effect on its whole batch exactly when no row of it is PENDING, and otherwise changes nothing |
| Proxy.SweepIsAtomic | src/modules/maintenance/maintenance.repository.ts:48-106 | at the end of the transaction either every task of the batch is failed with one event at its MAX + 1, or no row and no log changes |
| Proxy.SweptLateInRun | src/modules/maintenance/maintenance.repository.ts:48-67 | in the whole system no task is timed out before its deadline |
| Proxy.PruningIsTerminal | src/modules/maintenance/maintenance.repository.ts:125-135 | an id selected for deletion belongs, until it is deleted, to a COMPLETED, FAILED or CANCELLED row created before the cutoff, whatever runs in between |
| Proxy.RetentionNeverRemovesInFlight | src/modules/maintenance/maintenance.repository.ts:141-153 | the delete, run any time after its select, removes only such rows, with their logs, and leaves every other task as it was |
| Proxy.DeliveredTerminalIsDurableInRun | src/modules/delivery/sse.service.ts:101-107 | the end-to-end guarantee in the whole system, with sweeps and retention |
| Database.Database.Insert | src/modules/tasks/schemas/tasks.sql.ts:115-117 | a row is added exactly if no row has its key, and keys stay unique |
| Database.Database.UpdateStatus | src/modules/tasks/tasks.repository.ts:45-62 | compare-and-set on the status; nothing changes on a mismatch, a missing row or a CHECK violation |
| Database.Database.UpdateProgress | src/modules/tasks/tasks.repository.ts:37-39 | progress is written whatever the status, and nothing if the row is gone |
| Database.Database.CancelTask | src/modules/tasks/tasks.repository.ts:69-90 | row and cancelled event together, or neither |
| Database.Database.FindById | src/modules/tasks/tasks.repository.ts:24-27 | the row, or none |
| Database.Database.InsertEvent | src/modules/delivery/events.repository.ts:24-67 | appends one event at MAX + 1, a seq that is free |
| Services.ExecutorService.SubmitResult | src/modules/executor/executor.service.ts:29-79 | exactly if the row is PROCESSING: three columns, one event at MAX + 1, one message and, with a webhook, one job; otherwise nothing |
| Services.ExecutorService.UpdateProgress | src/modules/executor/executor.service.ts:82-93 | progress, event and publication, unconditionally |
| MachineRuns.SubmitResultIsMachineRun | src/modules/executor/executor.service.ts:29-79 | that result is what six steps of the one-task machine reach when nothing interleaves |
| MachineRuns.UpdateProgressIsMachineRun | src/modules/executor/executor.service.ts:82-93 | a progress report is what five steps of the one-task machine reach when nothing interleaves |
| Services.CancelService.Cancel | src/modules/tasks/tasks.service.ts:143-166 | 404 without a row, 204 if it is PENDING or PROCESSING, else 409; 204 sets status and completion time, adds one event at MAX + 1, one message and, with a cancel URL, one job; the others change nothing |
| MachineRuns.CancelIsMachineRun | src/modules/tasks/tasks.repository.ts:69-90 | cancelTask is what three steps of the one-task machine reach when nothing interleaves |
| MachineRuns.DispatchIsMachineRun | src/modules/executor/workers/dispatch.processor.ts:67-117 | for any replies, a dispatch job is what claim, POSTs and end of the one-task machine reach |
| MachineRuns.SweepIsMachineRun | src/modules/maintenance/maintenance.repository.ts:48-106 | the timeout of one late task is what lock, read, commit and publication of the one-task machine reach |
| MachineRuns.WebhookIsMachineStep | src/modules/delivery/workers/webhook.processor.ts:62-80 | the machine builds the payload the worker builds |
| MachineRuns.StreamIsMachineRun | src/modules/delivery/sse.service.ts:59-156 | in the machine, a stream that gets its history before it hears anything emits exactly the specification |
| Services.DispatchProcessor.Process | src/modules/executor/workers/dispatch.processor.ts:67-117 | POSTs exactly if the row was PENDING, and as often as the replies demand, up to three; status, start and new deadline of the claim; then unchanged, EXECUTOR_REJECTED or DISPATCH_FAILED by the last reply; it never rethrows |
| Services.WebhookProcessor.Process | src/modules/delivery/workers/webhook.processor.ts:59-108 | posts exactly if the row exists and has a URL, with the row's current outcome, as often as the replies demand, up to five; it never rethrows |
| Sse.StepKeepsConnInv | src/modules/delivery/sse.service.ts:82-159 | every callback keeps the connection's invariant |
| Sse.OrderTheorem | src/modules/delivery/sse.service.ts:82-159 | for any messages, lost, duplicated or out of order: ids strictly increase above afterSeq, a terminal event is last and exactly it completes the stream, the buffer never exceeds 500 |
| Sse.EndsOnce | src/modules/delivery/sse.service.ts:82-173 | once a stream has completed or failed, no further callback changes its output or its end |
| Sse.OverflowSafety | src/modules/delivery/sse.service.ts:87-99 | an overflow ends the stream before any event was emitted, so reconnecting with the same id skips nothing |
| Sse.SseConnection.constructor | src/modules/delivery/sse.service.ts:64-67 | a new connection has sent nothing and starts above afterSeq |
| Sse.SseConnection.HandleMessage | src/modules/delivery/sse.service.ts:82-114 | by cases: nothing when done, malformed or already seen; buffered before the history, up to 500, and an error beyond; emitted after it, and completed by a terminal event |
| Sse.SseConnection.HandleHistory | src/modules/delivery/sse.service.ts:128-156 | the two loops, with their early returns, equal the recursive replay and drain |
| Sse.SseConnection.HandleQueryFailed | src/modules/delivery/sse.service.ts:157-159 | a failed query ends an open stream in error with its output unchanged, and changes no other |
| Sse.SseConnection.HandleRedisError | src/modules/delivery/sse.service.ts:116-119 | a Redis error ends an open stream in error, and changes no other |
| Sse.SseConnection.Unsubscribe | src/modules/delivery/sse.service.ts:161-162 | a client that leaves ends an open stream without error, and changes no other |
| SseService.SseService.Open | src/modules/delivery/sse.service.ts:59-67 | refused exactly if there is no such task; otherwise a new connection |
| SseService.SseService.LoadHistory | src/modules/delivery/sse.service.ts:126-156 | the query and its callback; on a connection that has heard nothing they deliver the whole specification |
| SseRefinement.SpecShape | src/modules/delivery/sse.service.ts:54-58 | the specification is a gap-free slice of the log from afterSeq + 1 that ends at the first terminal event or at the end of the log |
| SseRefinement.DrainGapFreeIff | src/modules/delivery/sse.service.ts:143-155 | for any live events of the log in any order, lost or repeated, the drained output has no gap if and only if none of them skips one |
| SseRefinement.InTimeIffPredecessorsFirst | src/modules/delivery/sse.service.ts:101-108 | that condition is: until the stream ends, each event arrives after all its predecessors that were not replayed |
| SseRefinement.GapFreeIff | src/modules/delivery/sse.service.ts:59-175 | for any run of the callbacks, with any faults at any point, a connection's output is a prefix of the specification if and only if its live events come in time |
| SseRefinement.ConnectionRefines | src/modules/delivery/sse.service.ts:59-175 | and then it is complete as far as the connection got, and completes exactly with the specification |
| SseRefinement.SubscriptionInTimeIff | src/modules/delivery/sse.service.ts:72-126 | on an ordered, lossless channel: no gap if and only if the subscription was active by the snapshot, or nothing came |
| SseRefinement.LossInTimeIff | src/modules/delivery/sse.service.ts:82-114 | one lost event leaves a gap if and only if it was still needed, another follows, and the stream had not ended |
| SseRefinement.SwapInTimeIff | src/modules/executor/executor.service.ts:85-90 | two events in the wrong order leave a gap if and only if the first was still needed and the stream had not ended |
| SseRefinement.AnyLiveEvents | src/modules/delivery/sse.service.ts:126-156 | every sequence of live events can reach a connection behind its history, and leaves a gap exactly if it is out of time |
| SseRefinement.LateSubscriptionLeavesGap | src/modules/delivery/sse.service.ts:72-126 | on any log, a subscription that starts behind the snapshot can lose events |
| SseRefinement.SwapLeavesGap | src/modules/executor/executor.service.ts:85-90 | on any log, two consecutive events published in the wrong order lose one |
| SseSessions.SpecResumes | src/modules/delivery/sse.service.ts:23-35 | reading on from the last id of a prefix yields exactly the rest |
| SseSessions.UnfinishedReading | src/modules/delivery/sse.service.ts:128-156 | whatever part of a connection reached the client, it is a prefix without a terminal event until the client has seen the end |
| SseSessions.SessionRefines | src/modules/delivery/sse.service.ts:59-175 | for any sequence of connections whose live events come in time, broken anywhere, everything received together is a gap-free, duplicate-free prefix of the specification |
| SseSessions.SessionGapFreeIff | src/modules/delivery/sse.service.ts:59-175 | over whole sessions whose connections deliver what they emit, the condition is exact: one event out of time on any connection is a gap for good |
| SseSessions.SessionCompletes | src/modules/delivery/sse.service.ts:59-175 | and all of it is read once a connection is seen to complete or reads to the end of the log |
| StreamRefinement.StreamIsConnection | src/modules/delivery/sse.service.ts:63-159 | every stream of a live task, at any moment of a run of the system, is a valid connection to its log |
| StreamRefinement.StreamGapFreeIff | src/modules/delivery/sse.service.ts:63-159 | so what it has emitted is a gap-free slice of the log of that moment if and only if what it has heard came in time |
| Maintenance.CheckRejectsPending | src/modules/tasks/schemas/tasks.sql.ts:136-139 | in a valid table, failing a batch violates the CHECK exactly if it holds a PENDING row |
| Maintenance.TimeoutSweeper.ExpireTimedOutTasksBatch | src/modules/maintenance/maintenance.repository.ts:41-107 | each task of the batch was PROCESSING and past its deadline, and gets status, BUSINESS_TIMEOUT, completion time and one event at MAX + 1, every other row and log unchanged; a smaller batch than asked for leaves no late row; or nothing changes, and a late row was PENDING |
| Maintenance.TimeoutSweeper.Process | src/modules/maintenance/workers/timeout-sweeper.processor.ts:86-121 | the loop terminates; every task is untouched or timed out so at one of the clocks, past its deadline, with exactly one message; a normal end leaves no PENDING or PROCESSING row past its deadline at the last clock; it throws exactly if a PENDING row was past its deadline then |
| Maintenance.SweptAreTheExpired | src/modules/maintenance/workers/timeout-sweeper.processor.ts:86-121 | with a clock that never runs backwards, the tasks failed are exactly those expired at its last reading |
| Maintenance.DataRetention.DeleteOldData | src/modules/maintenance/maintenance.repository.ts:116-167 | the loop terminates; a row stays if and only if it is PENDING, PROCESSING or not older than the cutoff, unchanged and with its log; the others go with all their events, and the counts are theirs |

## Left out

- NestJS modules, controllers, DTO validation, exception filters, logging, metrics and heartbeats: wiring and presentation.
- The insides of BullMQ, ioredis, Drizzle, Postgres and RxJS: a queue is a set of jobs delivered any number of times, Redis a map with expiry and a channel, Postgres atomic steps with its unique indexes, row locks and CHECK, the observer a list with one end.
- Redis cluster parsing and SCAN loops: they depend on a server cursor outside the repository.
- Tokens, API keys and constant-time comparison: of the callback guard only the status read is kept, as a step that may be stale by the time of the write.
- The cancel-notification worker: best effort, and it changes no state.
- Payload contents, JSON, URLs, UUIDs and the parsing of Last-Event-ID: payloads are opaque, ids are fresh, afterSeq is a number.
- Redis commands that arrive after their caller has crashed: a crash takes effect between two effects.
- Liveness: nothing says that an orphaned PENDING task is ever failed; the CHECK rejects that write.
- Creation.CreationAgreement: stated with retention off, because after retention deletes a task its key may name a new one.
- PostsPerKey.PostsPerKey: stated with retention off, for the same reason.
- StreamRefinement.StreamGapFreeIff: of tasks that still exist; once a row is deleted there is no log to measure a stream against.
- Maintenance.TimeoutSweeper.Process: run alone; with other writers, `Proxy` proves each batch atomic but not that the loop ends.
- Maintenance.DataRetention.DeleteOldData: run alone; with other writers, `Proxy` proves that no in-flight task is removed but not the counts.
- Services.DispatchProcessor.Process: the message of the stored error is left empty; it repeats URL and status.
- Services.ExecutorService.SubmitResult: on a PROCESSING row that breaks the CHECK already, the source throws where the model returns; neither changes anything.
- Database.Database.UpdateStatus: a CHECK violation is a result value here and an exception in the source; with rows that satisfy the CHECK, no caller in this project meets one.

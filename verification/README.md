# Verification of the task platform's core

A Dafny model of the scheduling and execution core of `task_platform`, with proofs that hold for all
inputs, all interleavings and all runs. `dafny verify dfyconfig.toml` checks the whole project.

**Queue mode** (`Protocol`, `Invariant`, `Guarantees`, `Progress`, `Completion`, `Processes`). Dispatchers, queue,
workers, database and retry sweepers, any number of each, form one labelled transition system. A
transaction or a queue call is one action; every process may stop before any of them, any transaction
or queue call may raise, jobs may be deleted and runs canceled at any time. `Invariant` states what every
action keeps, `Guarantees` derives what the platform promises in every reachable state and over whole
runs, and `Progress` gives a measure that bounds the work on every run; `Completion` shows that every run
can be finished. `Processes` writes the worker, the sweep and one dispatch as programs whose transactions are
protocol actions, with the others interfering in between; what they answer and store is stated on what they are
given and find. `MemoryQueue` is the queue as an object, proved to implement the protocol's queue.

**Tables and recovery** (`StateMachine`, `Repositories`, `Recovery`, `Cancellation`). The transition
table, the repository statements, the recovery loops and cancellation over the stored tables.

**Tickers** (`TimerHeap`, `Dispatcher`, `Scheduler`). The heap loops of the dispatcher and of the
single-process scheduler, for all answers of their callbacks. What a tick does is stated on the heap, the clocks
and the answers; what any sequence of ticks keeps is proved on top of it.

**Small cores** (`Schedule`, `Idempotency`, `Text`, `Models`, `Executor`, `Prometheus`). Next-run times,
slot keys as strings, retry delays, the bounded wait, label escaping.

**ETL** (`Quality`, `Factory`, `Pipeline`). The random generator over an arbitrary tape, the stateful
rules and the lazy pipeline, down to what the report says about the fields of the orders.

## Where the code and its promises differ

- Recovery frees the key of a slot whose message is queued but whose QUEUED row was never stored, and the
  slot is published again: `Guarantees.UnprojectedRecoveryRepublishesSlot`. It also marks RECOVERABLE an attempt
  whose retry is queued and not yet taken, and canceling then reports the run CANCELED although the retry is
  still executed: `Guarantees.UnprojectedRecoveryCancelsLiveRun`. It is safe exactly under the condition of
  `Guarantees.RecoveryKeepsPromisesIffProjected`, on which the protocol's `Recover` action depends.
- The transition table alone lets RUNNING, RETRYING and RECOVERABLE go back to QUEUED. That stored rows never do
  is a property of the protocol: `Guarantees.StepGoesForward`.
- "Strictly later" fails for intervals that round to zero microseconds: `Schedule.TinyIntervalStandsStill`,
  exact condition `Schedule.NextRunIsLaterIffAdvances`.
- A key that cannot be built raises out of a tick and drops the trigger, and all due ones after it, from the
  heap: `Dispatcher.LongIdLosesTrigger`, exact conditions `Dispatcher.JudgeFailsExactly` and
  `Idempotency.KeyErrorsExactly`. The scheduler does the same when slots are claimed: `Scheduler.LongIdLosesPair`,
  exact conditions `Scheduler.JudgeFailsExactly` and `Scheduler.FirstTickLosesPairExactly`.
- A publication and a release that both raise leave the slot claimed and unpublished until a recovery or the
  deletion of the job: `Guarantees.ForfeitedUntilFreed`.
- The worker's check compares its heartbeat with its own `stale_after` only: `Processes.OwnCheckIsNotEnough`,
  exact condition `Guarantees.HeartbeatsSufficeExactly`.
- Colons in job ids and at signs in daily schedule ids can make slot keys collide:
  `Idempotency.ColonInJobIdCollides`, `Idempotency.AtSignInDailyIdCollides`, exact conditions
  `Idempotency.JobsShareKeyExactly` and `Idempotency.SchedulesShareKeyExactly`. Ids generated by the platform
  (a prefix and twelve hexadecimal digits) meet none of these conditions, nor are they too long for a key.
- An unchecked discount lets negative amounts through: `Pipeline.NegativeAmountPasses`, exact condition
  `Pipeline.NegativeAmountExactly`.

## Assumptions of the protocol

- Run ids are fresh, a deleted job's id is never used again, and a job's retry policy does not change.
- A publication that raises did not enqueue.
- No two workers share a consumer name: a worker's name is also the owner of its leases.
- Live holders renew in time: the clock advances only while every live holder is within the shortest
  `stale_after` (action `Advance`). That a worker whose message was taken over writes nothing more is then
  proved (`Invariant.TakeOverHitsNoLiveHolder`), not assumed.
- `recover` runs only while no process is in the middle of anything and every queued message has its row.

## Model

| member | source | states |
|---|---|---|
| Guarantees.SingleContinuation | src/task_platform/worker.py:128-265 | In every state that any interleaving of workers, sweepers, dispatchers, operators and crashes reaches, two ways for a run to go on (a queued message whose attempt is not settled, a stored retry schedule, a schedule taken by a sweeper) are the same one |
| Guarantees.NoAttemptPublishedTwice | src/task_platform/retry_sweeper.py:34-60 | No `(run_id, attempt)` is ever published twice, over all runs |
| Guarantees.ExclusiveExecution | src/task_platform/worker.py:227-265 | Two workers are never between the RUNNING write and the final write of the same run at the same time |
| Guarantees.NoLostWork | src/task_platform/worker.py:54-62 | Every published message is in exactly one of ready, pending and acked, and an acked one has its attempt in a handled status or its job deleted |
| Guarantees.AttemptChain | src/task_platform/executor.py:160-186 | A stored attempt is within `max_attempts`, and every lower attempt of its run is stored as RETRYING with its schedule taken |
| Guarantees.OneMessagePerSlot | src/task_platform/dispatcher.py:90-151 | At most one message is ever published per idempotency key, and while its job is stored the key belongs to that message's run, although `release` ignores the owner |
| Guarantees.ForfeitedUntilFreed | src/task_platform/dispatcher.py:153-160 | Over every run: a slot whose publication and release both raised stays claimed and is never published exactly as long as neither a recovery nor the deletion of its job happens |
| Guarantees.RaisingReleaseForfeits | src/task_platform/dispatcher.py:125-132 | When the release raises too, the key stays under a run that was never published and that nobody has in hand |
| Guarantees.LeaseSafety | src/task_platform/infrastructure/queue/memory.py:55-78 | While live holders stay within the shortest lease, every renewal of theirs succeeds, nobody can take their message over, and no other worker holds it |
| Guarantees.HeartbeatsSufficeExactly | src/task_platform/worker.py:199-225 | Punctual heartbeats keep every lease if and only if every heartbeat interval is below the shortest `stale_after` of all workers |
| Processes.OwnCheckIsNotEnough | src/task_platform/worker.py:102-107 | Two workers that both pass the constructor's check, of which one can lose its lease to the other although it beats on time |
| Guarantees.StepGoesForward | src/task_platform/infrastructure/db/mappers.py:115-123 | Every action leaves a stored status or raises its rank (QUEUED, RUNNING, RETRYING, RECOVERABLE, terminal) along the transition table, changes no terminal row and clears no `cancel_requested` |
| Guarantees.LateInsertOverwritesNothing | src/task_platform/cli/queue_commands.py:69-75 | The late QUEUED insert stores attempt 1 of the published run exactly when it has no row and its job is stored, and leaves every stored row as it is |
| Guarantees.RowsNeverRegress | src/task_platform/domain/state_machine.py:30-64 | The same over any stretch of any run: the status of a row still stored is what it was or of higher rank, and a row that went away with its job never reappears |
| Guarantees.UnprojectedRecoveryRepublishesSlot | src/task_platform/infrastructure/db/repositories.py:484-488 | A reachable state with nothing running in which recovery takes the key of a published slot for an orphan, so that the slot is published again |
| Guarantees.UnprojectedRecoveryCancelsLiveRun | src/task_platform/recovery.py:44-48 | A reachable state with nothing running and a retry queued in which recovery marks the attempt before it RECOVERABLE, so that canceling reports the run CANCELED while the retry is still to be executed |
| Guarantees.RecoveryKeepsPromisesIffProjected | src/task_platform/recovery.py:33-57 | In a reachable state with no process in the middle of anything, recovery keeps both promises (keys of published slots owned by their run; attempts before a published retry RETRYING) if and only if every message still queued has its row or a deleted job |
| Guarantees.WorkerWriteGoesForward | src/task_platform/infrastructure/db/repositories.py:197-202 | An upsert from a freshly built execution, made by the worker that holds the message, keeps the row's status or raises its rank |
| Invariant.StepKeeps | src/task_platform/worker.py:128-159 | The inductive invariant of the whole protocol is kept by each of its 26 actions |
| Invariant.ReachableInv | src/task_platform/worker.py:128-159 | The invariant holds in every reachable state |
| Invariant.RecoverSafeIffProjected | src/task_platform/recovery.py:33-57 | With no process in the middle of anything, recovery keeps the invariant if and only if every message still queued already has its attempt row or belongs to a deleted job |
| Invariant.TakeOverHitsNoLiveHolder | src/task_platform/worker.py:167-181 | An enabled takeover never hits a message that a live worker holds |
| Invariant.KeyNeverOwnedByOther | src/task_platform/worker.py:183-196 | The owner check of a worker never fires: the key of a queued message of a stored job still belongs to its run |
| Invariant.ReleaseSlotKeeps | src/task_platform/infrastructure/db/repositories.py:476-482 | Deleting by key alone is harmless: the key a dispatcher releases is its own and was never published |
| Invariant.ClaimDueKeeps | src/task_platform/infrastructure/db/repositories.py:246-270 | Among any number of sweepers exactly the one that clears the schedule becomes the flight of the attempt |
| Invariant.ChainDown | src/task_platform/retry_sweeper.py:39-55 | A stored attempt has every earlier attempt of its run stored and given up for its successor |
| Progress.StepWork | src/task_platform/worker.py:227-253 | A natural number computed from attempts left and protocol stage falls with every action on a run, and rises (by at most five) only when a worker stops half-way or a retry publication fails |
| Progress.RunsTerminate | src/task_platform/domain/models.py:63-65 | From the draw of a run id on, at most `10 * max_attempts + 5 * setbacks` actions of any run of the system ever work on it |
| Progress.RestIffNoWork | src/task_platform/retry_sweeper.py:39-55 | The measure is zero exactly when nothing of the run is queued, scheduled, in flight or about to be published |
| Completion.EveryRunCanFinish | src/task_platform/worker.py:128-265 | From every reachable state in which a run's job is stored, and for every way its attempts may end, some finite sequence of actions without failed publications, deletion, cancellation, recovery or the stop of a process working on the run leaves nothing of it to do |
| Completion.WorkCanFall | src/task_platform/retry_sweeper.py:34-60 | While the job is stored and work is left, such a sequence leads to strictly less work: drawn runs are published, schedules claimed and published, bounced ones put back and published, messages delivered, handled and acked, orphaned ones taken over |
| Completion.HolderFalls | src/task_platform/worker.py:227-265 | A worker holding a message of the run can always do its next write or ack: nothing refuses it while the job is stored |
| MemoryQueue.TakeStale | src/task_platform/infrastructure/queue/memory.py:55-70 | The takeover loop claims the first `min(count, stale)` stale entries in insertion order and rewrites only those |
| MemoryQueue.TakenAreTheFirstStale | src/task_platform/infrastructure/queue/memory.py:61-69 | Stopping the scan at `count` claims takes exactly the entries that are stale and preceded by fewer than `count` stale ones |
| MemoryQueue.MemoryQueue.Publish | src/task_platform/infrastructure/queue/memory.py:34-39 | Appends under a new id; ids stay unique across ready and pending |
| MemoryQueue.MemoryQueue.Consume | src/task_platform/infrastructure/queue/memory.py:41-49 | Moves the oldest ready message to the end of pending with delivery count one |
| MemoryQueue.MemoryQueue.Ack | src/task_platform/infrastructure/queue/memory.py:51-53 | Removes exactly the entry of this id and answers whether it was pending |
| MemoryQueue.MemoryQueue.ClaimStale | src/task_platform/infrastructure/queue/memory.py:55-70 | On the entries alone: exactly those delivered at least the idle time ago with fewer than `count` such before them change hands, in place, with a new lease and one more delivery, and they are answered in order |
| MemoryQueue.ClaimMeans | src/task_platform/infrastructure/queue/memory.py:55-70 | The same for the specification of a claim, for all contents, counts and idle times |
| MemoryQueue.MemoryQueue.Renew | src/task_platform/infrastructure/queue/memory.py:72-78 | Sets the delivery time to now exactly for the message pending under the caller's name, changes nothing else, and answers whether there was one |
| MemoryQueue.FirstDeliveriesInOrder | src/task_platform/infrastructure/queue/memory.py:41-49 | Over any sequence of operations the k-th first delivery is message k, and the ready messages are the rest in order |
| MemoryQueue.DeliveryCount | src/task_platform/infrastructure/queue/memory.py:66-69 | Over any sequence of operations an entry's delivery count is one plus the number of takeovers of its message |
| MemoryQueue.LostLeaseStaysLost | src/task_platform/infrastructure/queue/memory.py:72-78 | Whoever does not hold the lease of a delivered message fails to renew it, through any operations, until it takes the message over itself |
| MemoryQueue.ConsumeImplements | src/task_platform/infrastructure/queue/memory.py:41-49 | Delivering in the implementation is the protocol's `Consume`, of the message published under that id |
| MemoryQueue.PublishImplements | src/task_platform/infrastructure/queue/memory.py:34-39 | Publishing in the implementation is publishing in the protocol, under the id that is the log position |
| MemoryQueue.AckImplements | src/task_platform/infrastructure/queue/memory.py:51-53 | Acknowledging in the implementation is the protocol's `Ack` |
| MemoryQueue.RenewImplements | src/task_platform/infrastructure/queue/memory.py:72-78 | Renewing in the implementation is the protocol's `Renew`, with the same answer |
| MemoryQueue.TakeOverImplements | src/task_platform/worker.py:169-179 | Claiming one stale message is an enabled `TakeOver` of the protocol, of the oldest stale entry and with its published payload |
| MemoryQueue.QueueImplementsRuns | src/task_platform/infrastructure/queue/memory.py:26-78 | Over every run of the whole protocol whose takeovers are the ones the queue hands out, the implementation, driven by the run's queue calls, equals the protocol's queue: order, leases, delivery counts and payloads |
| MemoryQueue.NewQueueImplementsRuns | src/task_platform/infrastructure/queue/memory.py:26-32 | The same from the empty system and a new queue on |
| Processes.Worker.NextDelivery | src/task_platform/worker.py:167-181 | A takeover exactly when the throttle has run out and a stale message exists, of the oldest one; the throttle is wound up exactly after a fruitless look; otherwise a new message, or nothing when none is ready |
| Processes.NewWorker | src/task_platform/worker.py:98-107 | A worker is refused exactly when an interval is not positive or the heartbeat is not shorter than `stale_after` |
| Processes.Process | src/task_platform/worker.py:128-159 | With others acting between any two transactions or queue calls and an exception in any of them, the ack included: a verdict means the message is acked and settled and no step on the way raised, an exception that the message is still pending and that this step raised or its write was refused for a deleted job. Dropped exactly for a deleted job; duplicate exactly when the attempt was handled at the check; unrunnable exactly without a handler; retry scheduled exactly when the handler raised and attempts are left; and the rows at the two writes have the status, times, error and schedule of the outcome, case by case |
| Processes.ProcessKnown | src/task_platform/worker.py:141-159 | The same from the duplicate check on; a dropped verdict is impossible there |
| Processes.LookUpJob | src/task_platform/worker.py:130-139 | Raises exactly as told; otherwise says whether the job is stored at that moment |
| Processes.CheckForDuplicate | src/task_platform/worker.py:183-196 | The attempt is skipped exactly when its row is SUCCESS, FAILED, CANCELED, RETRYING or RECOVERABLE at the moment of the check; the check on the key owner never adds a case |
| Processes.Acknowledge | src/task_platform/worker.py:153-158 | After the last write only the ack is left: it settles the message, or raises and leaves it pending, whatever others did meanwhile |
| Processes.ExecuteAndPersist | src/task_platform/worker.py:227-253 | A registered handler is run between a RUNNING row and its final row, an unregistered one gives a FAILED row at once; the verdict and the final row are those of the outcome, written out case by case; otherwise a write raised or was refused for a deleted job, and the message stays pending |
| Processes.ExecuteAndAcknowledge | src/task_platform/worker.py:156-159 | The same with the acknowledgement after it |
| Processes.Start | src/task_platform/worker.py:255-258 | The row says RUNNING since the given time, or the message stays pending; that happens only with an exception or when it must insert for a deleted job |
| Processes.Persist | src/task_platform/worker.py:260-265 | The final row: FAILED without a handler; SUCCESS, CANCELED with its error, RETRYING with error and retry time when attempts are left, else FAILED with its error |
| Processes.SweepDueRetries | src/task_platform/retry_sweeper.py:26-60 | Against any number of other sweepers, every row of the page has its turn, in order: it is lost if its schedule was gone when this sweeper claimed it, put back with its old schedule if publishing raised, and otherwise its successor is published by this sweeper; the ids answered are those of the published rows, in the order of the page |
| Processes.PublishedAreNew | src/task_platform/retry_sweeper.py:39-60 | Every row a sweep published had no successor published before, by anyone |
| Processes.PublishedOnce | src/task_platform/retry_sweeper.py:39-60 | No attempt is answered twice by a sweep |
| Processes.SweepOne | src/task_platform/retry_sweeper.py:39-55 | One listed row: lost exactly when its schedule is gone at the claim, put back exactly when it is claimed and publishing raises, else published as attempt n+1 of its run |
| Processes.BounceTaken | src/task_platform/retry_sweeper.py:47-54 | After a failed publication the row, if still stored, has its old schedule again |
| Processes.Dispatch | src/task_platform/dispatcher.py:100-151 | Skipped, changing nothing, exactly when claiming raises, the job is gone or the key is taken; deferred exactly when publishing then raises, with the key free again or forfeited if releasing raised too; else sent, with the slot's message in the log under this run and its row stored unless that raised |
| Processes.GiveSlotBack | src/task_platform/dispatcher.py:125-132 | The key is free again; a release that raises leaves the slot claimed by a run never published, unless the job was deleted |
| Processes.InterferenceIsCovered | src/task_platform/worker.py:198-225 | Every run of the other processes' actions, the worker's own heartbeat renewals included, satisfies what the programs assume about interference |
| StateMachine.TerminalIffDeadEnd | src/task_platform/domain/state_machine.py:30-64 | A status is terminal if and only if no other status is reachable from it in any number of transitions |
| StateMachine.Transition | src/task_platform/domain/state_machine.py:55-64 | Succeeds exactly for the pairs of the table |
| Repositories.Store.Add | src/task_platform/infrastructure/db/repositories.py:174-176 | Inserts exactly when the attempt is new and the job stored, and otherwise changes nothing |
| Repositories.Store.Update | src/task_platform/infrastructure/db/repositories.py:190-195 | Raises exactly for a missing row; otherwise that row gets the fields written, but keeps its job and `cancel_requested`, and every other row stays |
| Repositories.Store.UpsertRow | src/task_platform/infrastructure/db/repositories.py:197-202 | Raises only when it must insert for a job that is gone; otherwise one row is inserted as it is, or written over with its job and `cancel_requested` kept |
| Repositories.Store.Claim | src/task_platform/infrastructure/db/repositories.py:246-259 | Wins exactly when a schedule is stored, and clears that schedule and nothing else, so the next claim loses |
| Repositories.Store.ListByStatus | src/task_platform/infrastructure/db/repositories.py:204-210 | Exactly the rows of the status, each once, as a subsequence of the table in primary-key order |
| Repositories.Store.ListDangling | src/task_platform/infrastructure/db/repositories.py:212-230 | Exactly the unscheduled RETRYING rows that no higher attempt supersedes, each once, in primary-key order |
| Repositories.Store.TryClaim | src/task_platform/infrastructure/db/repositories.py:455-469 | Wins exactly for a free key of a stored job, raises for a free key of a deleted one, and never replaces an owner |
| Repositories.Store.Release | src/task_platform/infrastructure/db/repositories.py:476-482 | Deletes by key alone and answers whether there was a row |
| Recovery.RecoverInterrupted | src/task_platform/recovery.py:33-57 | The three loops leave the recovered tables and report exactly the RUNNING rows, the dangling retries and the orphan keys found; with nothing to recover they change and report nothing |
| Recovery.RecoveryIsComplete | src/task_platform/recovery.py:33-57 | Afterwards no row is RUNNING, no retry dangles and every key has an execution |
| Recovery.RecoveryIsMinimal | src/task_platform/recovery.py:36-48 | Exactly the RUNNING rows and the unscheduled RETRYING rows with no higher attempt change, to RECOVERABLE; a RUNNING row gets its finish time and keeps its error, or the interruption text if it has none; no other field changes; exactly the keys whose run has no row go |
| Recovery.RecoveryIsIdempotent | src/task_platform/recovery.py:33-57 | A second recovery at any time changes nothing |
| Recovery.DanglingUnchanged | src/task_platform/infrastructure/db/repositories.py:212-230 | Recovering the RUNNING rows first does not change which retries dangle |
| Cancellation.RequestCancel | src/task_platform/cancellation.py:29-46 | The run's highest attempt gets `cancel_requested` and nothing else if RUNNING, becomes CANCELED with its finish time if RECOVERABLE, and is left alone otherwise; the outcome tells which, and the change is the protocol's |
| TimerHeap.InsertKeepsOrder | src/task_platform/dispatcher.py:63-64 | Pushing keeps the heap ordered by time, then insertion |
| TimerHeap.DueExactly | src/task_platform/dispatcher.py:76-78 | What is popped is exactly what is due, in that order |
| TimerHeap.PopDue | src/task_platform/scheduler.py:110-115 | The popping loop returns the due entries in order and leaves the others |
| TimerHeap.TickConserves | src/task_platform/dispatcher.py:76-88 | For any handler that keeps places: the due entries are handled in order up to the first exception and each keeps its pair's one place |
| TimerHeap.TickFollows | src/task_platform/dispatcher.py:80-85 | For any handler: a view of the ticker that follows its expectation entry by entry follows it over the whole tick, up to and including the entry that raises |
| Dispatcher.Dispatcher.Tick | src/task_platform/dispatcher.py:72-85 | On the heap, the clock and the answers alone: due entries are handled in order up to the first that raises; the messages sent are those of the slots won and published without an exception, under their keys and new run ids, in order; each handled pair has exactly one entry, at its own slot if publishing raised, else at its next one; what is not due stays; what is still due was put back (or its interval rounds to nothing) |
| Dispatcher.PublishedExactly | src/task_platform/dispatcher.py:90-151 | The slot of the i-th due entry is published by a tick if and only if no earlier entry raised, job and schedule are enabled, the ids make a key, the claim was won (or none is made) and publishing did not raise; the message has that slot and key |
| Dispatcher.TickIsDone | src/task_platform/dispatcher.py:72-88 | The specification of a tick does what is stated of a tick on its inputs |
| Dispatcher.JudgeMeans | src/task_platform/dispatcher.py:90-151 | What becomes of one entry, read off the entry and the answers: when it is published, when a run id is drawn, when it is due again |
| Dispatcher.Dispatcher.DispatchEntry | src/task_platform/dispatcher.py:90-151 | One entry: raises exactly when its ids make no key or its next time is past the calendar, publishes exactly when it is enabled, won and publishing does not raise, and then one message under its key and a new run id |
| Dispatcher.Dispatcher.Add | src/task_platform/dispatcher.py:66-67 | One heap entry more, of the pair, at its next run time |
| Dispatcher.JudgeFailsExactly | src/task_platform/dispatcher.py:90-151 | An exception leaves the tick at an entry if and only if it is enabled and its ids make no key, or it is not put back and its next slot is past the calendar |
| Dispatcher.TickIsProcessed | src/task_platform/dispatcher.py:72-88 | A dispatcher tick raises exactly when some due entry does, the multiset of registered pairs loses exactly the entries from there on, and the slots published are those of the entries begun, in order |
| Dispatcher.TickPublishesInOrder | src/task_platform/dispatcher.py:80-85 | The messages published by a tick are those of the entries handled, in due order |
| Dispatcher.LeftDue | src/task_platform/dispatcher.py:87-88 | After a tick an entry is due only if its publication failed, at its original slot, or its interval does not survive rounding |
| Dispatcher.SlotsNeverRecur | src/task_platform/dispatcher.py:87-100 | Over any sequence of ticks and clocks one trigger's published slots strictly increase, daily ones fall on increasing dates, and their keys differ, whatever the ids |
| Dispatcher.LongIdLosesTrigger | src/task_platform/dispatcher.py:100-101 | A job id of 300 characters: the tick raises and the trigger is gone from the heap |
| Scheduler.Scheduler.Tick | src/task_platform/scheduler.py:117-223 | On the heap, the clocks and the answers alone: due entries are handled in order up to the first that raises; the log grows by exactly their executions, with the status of each outcome and run ids drawn in order; each handled pair has exactly one entry: attempt n+1 of the same run at the retry time when attempt n failed and may be retried, else a regular one at its next slot; what is not due stays |
| Scheduler.TickIsDone | src/task_platform/scheduler.py:117-223 | The specification of a tick does what is stated of a tick on its inputs |
| Scheduler.JudgeMeans | src/task_platform/scheduler.py:130-221 | What becomes of one entry, read off the entry and the answers: whether a run id is drawn, an attempt executed and with which status, a retry pushed, and when the entry is due again |
| Scheduler.Scheduler.Add | src/task_platform/scheduler.py:106-108 | One heap entry more, of the pair, regular and at its next run time |
| Scheduler.PlacesKept | src/task_platform/scheduler.py:130-221 | Every handled entry, whatever its branch, leaves exactly one entry of its pair, regular or retry, or raises |
| Scheduler.TickExecutesInOrder | src/task_platform/scheduler.py:130-197 | A tick appends exactly the executions of the entries it began, in due order, and draws run ids in that order |
| Scheduler.HistoryOfAnyRun | src/task_platform/scheduler.py:106-223 | Over any sequence of registrations and ticks: executions are never forgotten, each run's are 1, 2, ... with all but the last RETRYING, no attempt is executed twice; unless a tick raised, the heap holds exactly the registered pairs, and the last execution of a run is RETRYING exactly while the heap holds an entry that continues it, or for good when its next attempt was due and did not start; no tick raises if the registered ids make keys (or none are claimed) and the clocks leave room in the calendar |
| Scheduler.JudgeFailsExactly | src/task_platform/scheduler.py:130-221 | An exception leaves the tick at an entry if and only if it is enabled, a first attempt to be claimed and its ids make no key, or the time it is due again (retry time or next slot) is past the calendar |
| Scheduler.TickRaisesExactly | src/task_platform/scheduler.py:117-223 | A tick raises if and only if one of the entries due at its start meets that condition |
| Scheduler.SafeNeverRaises | src/task_platform/scheduler.py:117-223 | No tick raises in a run whose registered ids make keys, or that claims none, and whose clocks leave room in the calendar |
| Scheduler.FirstTickLosesPairExactly | src/task_platform/scheduler.py:140-142 | For one enabled pair and such clocks: its first tick raises and the pair is gone from the heap if and only if slots are claimed and its ids make no key |
| Scheduler.LongIdLosesPair | src/task_platform/scheduler.py:140-142 | A job id of 300 characters: the tick raises and the pair is gone from the heap |
| Scheduler.HandleKeeps | src/task_platform/scheduler.py:130-221 | Handling one entry keeps: executions of each run are 1..n, within the policy, all but the last RETRYING, and each retry entry continues an open run of its own pair |
| Scheduler.HandleAccounts | src/task_platform/scheduler.py:197-221 | Handling one entry keeps the account: a run waits for another attempt exactly when one entry continues it or its retry did not start |
| Scheduler.AttemptsNeverRepeat | src/task_platform/scheduler.py:199-208 | Of two executions of one run the later has the larger attempt number and the earlier was RETRYING, of the same pair |
| Scheduler.InHistory | src/task_platform/scheduler.py:197-208 | An execution is the one its attempt number says in its run's history |
| Schedule.NextRunIsLaterIffAdvances | src/task_platform/domain/schedule.py:44-60 | The next run is strictly after the given time if and only if the interval is above half a microsecond (daily rules always) |
| Schedule.TinyIntervalStandsStill | src/task_platform/domain/schedule.py:36-38 | An accepted interval of 0.4 microseconds whose next run is the same instant, against the documented strictness |
| Schedule.IntervalIsExact | src/task_platform/domain/schedule.py:44-60 | An interval adds its seconds, to the nearest microsecond and the even one of two |
| Schedule.DailyNextIsFirst | src/task_platform/domain/schedule.py:55-60 | The daily slot is the first instant after the given one with the rule's time of day |
| Schedule.DailySlotsHaveTheirOwnDates | src/task_platform/domain/schedule.py:55-60 | Successive daily slots fall on increasing UTC dates |
| Idempotency.KeysAgreeExactlyOnSlots | src/task_platform/domain/idempotency.py:16-36 | Two scheduled keys are the same string if and only if job, schedule, kind and slot (date or microsecond) agree, for any ids that do not clash |
| Idempotency.JobsShareKeyExactly | src/task_platform/domain/idempotency.py:19-25 | Two job ids can share a key if and only if the longer is the shorter, a colon, a date and then nothing or a colon and more, and is at most 242 characters |
| Idempotency.SchedulesShareKeyExactly | src/task_platform/domain/idempotency.py:34-36 | A daily and an interval schedule of one job can share a key if and only if the daily id is the interval id, an at sign and a time of day, of at most 242 characters |
| Idempotency.ColonInJobIdCollides | src/task_platform/domain/idempotency.py:19-23 | For every day, two different triggers with one key, by a colon in a job id |
| Idempotency.AtSignInDailyIdCollides | src/task_platform/domain/idempotency.py:34-36 | For every time of day, a daily and an interval trigger with one key, by an at sign in the daily id |
| Idempotency.KeyErrorsExactly | src/task_platform/domain/idempotency.py:17-25 | Building a scheduled key raises exactly for an empty job id, a blank daily schedule id or ids too long for the limit |
| Idempotency.KeySpellsOut | src/task_platform/domain/idempotency.py:16-36 | A key is the job id, a colon, the UTC date of the slot as `YYYY-MM-DD` by the Gregorian calendar, a colon and the schedule id, and for an interval an at sign and the time of day as `HHMMSS.ffffff` |
| Idempotency.DateRoundTrip | src/task_platform/domain/idempotency.py:19-19 | The calendar date of a day is a real date and determines the day |
| Idempotency.ClockTextInjective | src/task_platform/domain/idempotency.py:36-36 | The time-of-day text determines the microsecond of the day |
| Models.DelaysAreBoundedAndMonotone | src/task_platform/domain/models.py:51-61 | Delays lie between base and cap, never decrease, and stay capped once capped |
| Models.DelaysExactly | src/task_platform/domain/models.py:51-61 | The first delay is the base; each later one is the same, or double up to the cap |
| Models.ExponentialBackoffTotal | src/task_platform/domain/models.py:57-61 | The total backoff of n failures is `base * (2^n - 1)` before the cap, and never more |
| Models.RunBackoffIsBounded | src/task_platform/domain/models.py:63-65 | A run retried as its policy allows waits at most `(max_attempts - 1) * max` in all |
| Executor.WaitFor | src/task_platform/executor.py:43-65 | The wait ends in the first round that is done, past the deadline or past the full grace since cancellation was first seen, for the first reason that applies, within `max(1, ceil(timeout / 0.1 s))` rounds |
| Executor.ExecuteAttempt | src/task_platform/executor.py:93-194 | Raises exactly before the handler starts; otherwise waits within bounds and goes PENDING, QUEUED, RUNNING, final along the table: a finished handler decides itself, a timeout gives RETRYING or FAILED by the policy, a used-up grace gives CANCELED; an error exactly when it did not succeed |
| Executor.Conclude | src/task_platform/executor.py:121-194 | The whole report for every way a started attempt can end: returned gives SUCCESS without error, canceled CANCELED with its text, raised RETRYING with its text while attempts are left and FAILED after that |
| Executor.ProtocolStoresWhatTheExecutorSays | src/task_platform/worker.py:247-251 | The row a worker persists, field by field and case by case, is the executor's report: status, times, error, and a schedule exactly for a retry |
| Prometheus.EscapeIsPerChar | src/task_platform/prometheus.py:24-25 | The three whole-string replacements equal one per-character map |
| Prometheus.EscapesExactly | src/task_platform/prometheus.py:24-25 | What a backslash, a quote and a line feed are escaped to; every other character stands for itself |
| Prometheus.ReadValueUndoesEscape | src/task_platform/prometheus.py:24-25 | A reader of the text format recovers any escaped value and stops exactly at its closing quote |
| Prometheus.LabelsRoundTrip | src/task_platform/prometheus.py:28-29 | Any rendered label set parses back to exactly the given labels |
| Factory.GenerateLabeledOrders | src/task_platform/etl/factory.py:98-161 | For every tape: rejects bad counts and ratios, else emits `count` orders, each the clean one with exactly its label's field spoiled, duplicates repeating the last id emitted |
| Factory.OrderFromDraws | src/task_platform/etl/factory.py:98-161 | An order is dirty exactly when its roll is below the ratio, of the kind drawn, except that a duplicate without an earlier id loses its id instead; every field, spoiled or not, is as drawn |
| Factory.LabelsAgreeWithRules | src/task_platform/etl/factory.py:98-161 | For every tape, pool, count and ratio the default rules find exactly the labelled rule in a labelled order and nothing in a clean one |
| Factory.UniqueAgrees | src/task_platform/etl/quality.py:64-71 | An id repeats an earlier one, quarantined or not, exactly when the order is labelled a duplicate |
| Factory.IdsAreEarlierNumbers | src/task_platform/etl/factory.py:113-147 | Every id emitted is the name of an order number reached so far |
| Factory.OrphanIsNobody | src/task_platform/etl/factory.py:50-51 | The orphan id is in no pool of fewer than 999999 users |
| Factory.GenerateUsers | src/task_platform/etl/factory.py:67-76 | The pool has consecutive ids from one, known regions and levels, and registration dates within the last 730 days |
| Factory.ReportMatchesLabels | src/task_platform/etl/quality.py:200-209 | Quarantined and warned row counts over a generated stream can be read off its labels |
| Factory.GeneratedRun | src/task_platform/etl/pipeline.py:125-138 | A pipeline run over generated users and orders quarantines and warns exactly as the labels say |
| Quality.UniqueMeansFirst | src/task_platform/etl/quality.py:64-71 | The remembering rule is violated exactly when some earlier order of the stream had the same value |
| Quality.DefaultRulesMean | src/task_platform/etl/quality.py:137-148 | Each default rule, written out on the fields of the order and of those before it |
| Quality.QuarantinedExactly | src/task_platform/etl/quality.py:168-198 | An order is quarantined if and only if its id or time is missing, its id occurred before, its quantity is not positive, its price negative, its status unknown or its user unknown; it carries a warning if and only if its time is in the future |
| Quality.FailuresAreNumbers | src/task_platform/etl/quality.py:185-209 | The failure counter of any rule is the number of orders that violate it |
| Quality.CountsAreNumbers | src/task_platform/etl/quality.py:185-209 | For any rules, the quarantined and warned counters are the numbers of orders with such a violation |
| Quality.QualityChecker.Check | src/task_platform/etl/quality.py:185-198 | The violations of an order are those the whole stream so far implies, and every counter equals its count over the stream |
| Quality.QualityChecker.ApplyAll | src/task_platform/etl/quality.py:186-191 | After the loop each rule remembers and has counted what the longer stream says |
| Quality.QualityChecker.MakeReport | src/task_platform/etl/quality.py:200-209 | The report states the counts of the whole stream |
| Quality.NewChecker | src/task_platform/etl/quality.py:175-183 | A rule set with a repeated name is rejected |
| Pipeline.RunOrdersPipeline | src/task_platform/etl/pipeline.py:125-138 | The lazy run never raises and equals doing validation, transformation and aggregation in full; on the orders' own fields: how many rows are quarantined and warned, which are quarantined and in which order, which groups there are, how many orders and paid orders each has, and its total within half a cent per paid order of the sum of quantity times price times one minus discount |
| Pipeline.BatchFromFields | src/task_platform/etl/pipeline.py:100-138 | The batch meaning of the three stages says exactly that about the orders' fields |
| Pipeline.TransformFromFields | src/task_platform/etl/pipeline.py:82-97 | When an order cannot be transformed and why; otherwise id, user, status, the region of its user, the UTC date, and quantity times price times one minus discount rounded to the cent, halves away from zero |
| Pipeline.AmountIsLinear | src/task_platform/etl/pipeline.py:87-89 | n times the quantity comes to n times the amount, up to rounding |
| Pipeline.ByIdIsLookup | src/task_platform/etl/pipeline.py:125-138 | Users are looked up by id, the last of each id |
| Pipeline.FeedAll | src/task_platform/etl/pipeline.py:68-111 | The interleaved stages over a stream leave each stage's batch result |
| Pipeline.TransformNeverRaises | src/task_platform/etl/pipeline.py:82-97 | Transformation succeeds on everything the default rules let pass, for every stream |
| Pipeline.PassingIsTransformable | src/task_platform/etl/pipeline.py:85-97 | An order that passes the default rules has its fields, a known user, a positive quantity, a non-negative price and a valid status |
| Pipeline.PassingIdsAreDistinct | src/task_platform/etl/quality.py:56-71 | An order that passes shares its id with no earlier order at all |
| Pipeline.RowsAreConserved | src/task_platform/etl/pipeline.py:100-122 | Total rows are quarantined rows plus the order counts of all groups |
| Pipeline.GmvIsClose | src/task_platform/etl/pipeline.py:87-89 | A group's orders and paid orders are counted by the orders' own fields, and its total differs from the sum of quantity times price times one minus discount over its paid orders by at most half a cent each |
| Pipeline.AverageIsClose | src/task_platform/etl/pipeline.py:54-59 | The average is the exact quotient rounded to the cent, halves away from zero, and zero without paid orders |
| Pipeline.NegativeAmountExactly | src/task_platform/etl/pipeline.py:87-89 | The amount of a passing order is negative if and only if its exact amount is at most minus half a cent, which needs more than a full discount |
| Pipeline.NegativeAmountPasses | src/task_platform/etl/quality.py:137-148 | An order with a discount of 2 that passes every default rule with a negative amount |
| Pipeline.Totals.Add | src/task_platform/etl/pipeline.py:106-111 | Each counter equals its count over the orders seen |

## Left out

- The Redis queue, message encoding, SQL, sessions and migrations: a transaction is one atomic action on maps, with unique and foreign keys as conditions.
- The `resume` command: it starts attempt n+1 of a RECOVERABLE run outside the queue and may exceed `max_attempts`.
- Publications that raised and yet enqueued, and holders that keep running after a pause longer than their lease: documented limits of the program, under which exactly-once claims do not hold.
- Threads, signals, logging, HTTP routes, command line, metrics queries, alerts, registry and job synchronisation: plumbing or easy members.
- The due-retry query returns rows ordered by due time and at most `limit` of them; the protocol allows any page of due rows.
- `timeout_seconds` on execution rows and the stored job logs; recovery reads the clock once per call instead of once per row.
- Processes.Platform.Interfere: its body is empty, since a program must hold for whatever others do; callers learn only its contract, and `InterferenceIsCovered` shows that every run of others satisfies it.
- Time zones: times are UTC microseconds, so the error for a naive timestamp does not arise; delays are whole microseconds.
- Jobs and schedules are values fixed when registered with a ticker; the original would see an `enabled` flag changed in place.
- The handler's own policy and timeout, which override the job's, are taken as the job's.
- Violation messages, products, and the final sorting of groups by date and region; decimal context precision (amounts are exact reals before rounding).
- Generators are loops that return their whole output; the lazy order of stages is kept in the pipeline loop.

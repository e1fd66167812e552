# ReLab: the engine, its journal and replay, verified

ReLab runs workflows (acyclic graphs of steps) on a pool of workers that may crash, stall or come
back late. Its whole state is in tables: runs, tasks, attempts, dead letters, artifacts, workers,
and a journal of events per run. Every operation is one short transaction guarded by status,
worker and attempt, and every transaction also appends events. `replay.Reduce` claims to rebuild a
run from those events alone.

The project proves what holds in **every database any schedule of transactions can reach**. A
schedule is any sequence of transactions, by any workers, with any clock readings, in which each
batch is any selection of eligible rows. A refused transaction is rolled back.

## How it is organised

| files | what they hold |
|---|---|
| `Common`, `Statuses`, `Events`, `Text` | identifiers, the status machines, the event types |
| `Workflow`, `Validation` | definitions as graphs, cycle detection, the validator |
| `Replay`, `History` | the reducer as a fold and as a mutating object; the grammar of legal histories and what every legal history guarantees |
| `Tables` | what each transaction does to one run's rows |
| `Invariant`, `Steps`, `Outcomes`, `Recovery` | the run invariant, and one lemma per transaction that keeps it |
| `Evolution`, `System` | how rows may change over time; the database, schedules, and the invariant of every reachable state |
| `Guarantees`, `Futures`, `Liveness`, `Holders` | the theorems about every schedule |
| `Effects`, `Accounts` | what each committed transaction writes and tells, row by row and event by event, first for one run and then for the database in every reachable state |
| `Narration` | what replay reads out of a journal, each field as a selection of the journal's own events |
| `Engine`, `Journal` | the operations as methods that update tables in place, with the source's loops; reading a journal back |
| `Diff`, `Ledger`, `Limiter`, `Injection`, `Encoding`, `Backoff` | comparing runs, the side-effect ledger, the rate limiter, the fault injector, key and draw encodings, retry delays |

The invariant is in two layers. `Core` is kept by each single row update together with its event:
column constraints, the dependency barrier, a journal that is legal, and rows that mirror the
reduced journal. `Settled` is restored when the transaction commits: no missed unlock, nothing
waiting below a dead task, and a run status that summarises its tasks. `History.Legal` is written
without reference to the engine, so it serves as an independent account of what the engine should
write. The class `Engine.Engine` then commits exactly these transactions.

What a transaction is meant to do is stated a second time, apart from the functions that compute it.
`Effects.Tells(r, r', told)` says that the journal grew by exactly the events `told`, word for word;
`Effects.Apart` is a run without its journal, so that an equation between two of them fixes every
column. The theorems of `Accounts` give both for every transaction kind, in terms of the rows before,
the arguments of the call and the declared steps alone.

Where a batch statement is one SQL `UPDATE` followed by a loop of appends, the model processes row
by row; since the rows of a batch are distinct, the committed state is the same.

## Where the code and its comments disagree

The model follows the code. Each case has its exact condition, proved in both directions, and
concrete inputs on which the comment fails.

- `Injector.Point` does not apply every fault that fires. A fault is passed over after one that
  does not match, after one that fails the task, after a worker crash, after a latency that the end
  of the task's context interrupts, and where a record cannot be written or the process ends:
  `AllAppliedIff`. What the scenario alone decides is `CanBeAppliedIff` and `AlwaysAppliedIff`.
  Instances: `ShadowedByMismatch`, `ShadowedByFailure`, `ShadowedByCrash`,
  `ShadowedByInterruptedLatency`, `ShadowedByRefusal`.
- `Ledger.Do` says that it performs an effect at most once per key, and that `skipped` reports an
  effect that was not called. A call that missed at its lookup runs the effect; if another call's
  insert wins meanwhile, it has run it too and is told it skipped: `SkippedAfterRunningIff`,
  `BothRanIff`; `OverlappingCallsBothRun`.
- An unknown payload version is refused for every event type except RUN_STARTED and the three
  worker liveness types: `VersionGate`; `UnknownVersionsAdmitted`.
- A LOST or STOPPED worker can hold a task. It comes to hold one by claiming, since a claim never
  reads the worker's status, and it keeps what it held when a sweep or its retirement declares it
  gone, since those move deadlines only: `GoneHoldNothingIff`, `NeverHeldByGoneIff`;
  `LostWorkerCanHoldTask`, `SweptWorkerStillHolds`, `RetiredWorkerStillHolds`.
- A worker that still holds a task of a cancelled run is told that the run is closed, not that its
  lease is lost: `WorkerCallsAccepted`; `LateReportAfterCancel`.
- "No step is a root" is described as unreachable once a cycle is reported. It is reported exactly
  when everything but the graph is in order and no step can start, and then always beside a cycle:
  `Validate`; `LoopOfTwo`.
- A retry policy without an initial delay waits nothing, until the growth factor alone overflows a
  float; then it waits `max_delay`. A multiplier below one, which validation admits only without
  retries, is ignored: `MeetsDocumentation`, `RetriesNeverShrink`; `NoDelayJumpsToCap`,
  `ShrinkingIsIgnored`.
- The length prefix that separates the parts of a derived draw wraps at 2^32 bytes:
  `DrawRoundTrip`; `LongPartsCollide`.
- Tailing a journal from a negative position reports a gap that is not there: `TailReadsBack`,
  `NegativeTailReportsGap`; `TailFromMinusOne`.

## Model

| member | source | states |
|---|---|---|
| Guarantees.ReplayRefinesEngine | internal/replay/reduce.go:29-258 | in every reachable state Reduce accepts every run's journal with the run's own status; for a run never cancelled it yields the same status and attempt for every task and the same output for a succeeded one, and a task is missing exactly while its row is PENDING |
| Guarantees.NothingUnrecorded | internal/replay/state.go:144-152 | for every reachable run, cancelled or not, replay's lost tasks are exactly the dead letters and are equally many, each carrying the attempts consumed, at least one; without a cancellation they are the DEAD rows; artifact rows are the last upload of each name in the journal |
| Guarantees.HistoriesAreLegal | internal/event/log.go:54-120 | every prefix of every reachable journal obeys the history grammar, which fixes when each event may occur and what it must say, down to the count of lost tasks a failed run reports |
| Guarantees.AttemptsAddUp | internal/replay/reduce.go:127-217 | after every event of every reachable journal, attempts are retries plus requeues plus one while the latest is outstanding, and each attempt was leased once, started at most once and exactly once if it runs or succeeded, and resolved at most once, by success or by failure or expiry |
| Guarantees.JournalShape | internal/event/log.go:54-120 | events are numbered 1..event_seq without a gap; an event is terminal exactly when the run is closed and it is the last one; completed_at is set exactly when the status is terminal |
| Guarantees.DependencyBarrier | internal/engine/outcome.go:196-291 | a task neither PENDING nor DEAD has every dependency SUCCEEDED, and everything transitively below a task that has not succeeded is PENDING or DEAD |
| Guarantees.ScheduledInOrder | internal/engine/outcome.go:196-246 | in every reachable journal a task's first scheduling comes after TASK_SUCCEEDED of each of its dependencies |
| Guarantees.NeverStalled | internal/engine/promote.go:92-119 | Progress.Stalled is false of every reachable run at every clock reading, and an open run always has a task that is READY, RETRYING or held |
| Guarantees.ProgressCountsAll | internal/engine/promote.go:102-119 | the five counts of RunProgress partition the tasks of every reachable run |
| Guarantees.ClosedRunsOfferNothing | internal/engine/cancel.go:30-84 | every task of a closed run has ended or is held, so no claim and no promotion can select one |
| Guarantees.VerdictsAreSound | internal/engine/outcome.go:294-343 | SUCCEEDED exactly when all tasks succeeded; of runs never cancelled, FAILED exactly when all ended and one died, and open exactly while one has not ended |
| Futures.Fencing | internal/engine/tasks.go:185-223 | once an attempt is over, no continuation lets anyone start, complete or fail it: the call reports a lost lease and the database stays as it was |
| Futures.SpentForever | internal/engine/reaper.go:156-187 | an attempt that was superseded or holds no lease stays so in every continuation |
| Futures.WorkerCallsAccepted | internal/engine/outcome.go:32-133 | in every reachable state Start, success and failure reports commit exactly while the row names the caller and that attempt in the required status and the run is open; they report a lost lease exactly without the attempt, a closed run exactly with it in a run that has closed, and a constraint violation exactly for an artifact whose digest is not 64 lower-case hexadecimal digits or whose size is negative; a cancellation is refused exactly for a closed run; the concurrent-attempt branch is unreachable |
| Futures.ClaimsCommit | internal/engine/tasks.go:47-104 | any claimable batch, over any mix of runs, commits unless the worker never registered |
| Futures.PromotionsCommit | internal/engine/promote.go:20-80 | any batch of due retries commits: no closed run can abort it |
| Futures.ExpiriesCommit | internal/engine/reaper.go:71-142 | any batch of expired leases, of open and closed runs mixed, commits: no entry aborts it or disturbs a later one |
| Futures.ClosedStaysClosed | internal/engine/reaper.go:387-405 | in every continuation a closed run keeps its verdict, journal, dead letters and artifacts; each row keeps its attempt and keeps its status or, if it was held, dies |
| Futures.CancelFreezesReplay | internal/engine/cancel.go:30-84 | in every continuation a cancelled run replays to its tasks as the rows had them at the moment of cancellation |
| Futures.BoundedWork | internal/engine/state.go:94-111 | from any reachable state, all task status changes of a run over any continuation, plus the weight left, are at most the weight there was, and hence at most 5 x max_attempts + 6 per step |
| Futures.BackoffRespected | internal/engine/outcome.go:139-168 | after a failure that will be retried, in every continuation and until the next attempt is claimed, no clock reading before the scheduled instant makes the task claimable or due |
| Futures.CancelStopsWork | internal/engine/cancel.go:30-84 | a cancellation leaves every task ended or due for the next lease sweep, and ended tasks as they were |
| Futures.ExpiryHandsOver | internal/engine/reaper.go:110-187 | an expired attempt leaves the task claimable from that instant on, with no worker and the attempt still consumed, or dead once attempts run out |
| Futures.GoneWorkersStayGone | internal/engine/workers.go:73-86 | no transaction changes a LOST or STOPPED worker ever again |
| Futures.SweepExpiresLeases | internal/engine/reaper.go:220-291 | a sweep makes exactly the silent live workers LOST, moves exactly their leases to the sweep's instant, and leaves every other deadline alone |
| Holders.GoneHoldNothingIff | internal/engine/reaper.go:220-291 | from a state in which no gone or unknown worker holds a task, a committed transaction leads to another exactly unless it claims something for a worker that is not alive, or declares a worker gone that holds something |
| Holders.NeverHeldByGoneIff | internal/engine/tasks.go:47-104 | over a whole schedule, no gone worker ever holds a task exactly when every committed transaction meets that condition at its place |
| Holders.ClaimsIgnoreLiveness | internal/engine/tasks.go:56-75 | whoever is registered gets a claimable task, whatever its liveness status, which the claim leaves alone |
| Holders.LostWorkerCanHoldTask | internal/engine/tasks.go:56-75 | a schedule after which a LOST worker claims and holds a task |
| Holders.SweptWorkerStillHolds | internal/engine/reaper.go:283-291 | a live worker claims, goes silent and is declared LOST, and still holds the task |
| Holders.RetiredWorkerStillHolds | internal/engine/workers.go:131-158 | a live worker claims and is retired, and still holds the task |
| Holders.LateReportAfterCancel | internal/engine/cancel.go:58-65 | the holder of a task whose run is cancelled reports late and is told the run is closed |
| Liveness.CanAlwaysFinish | internal/engine/promote.go:92-99 | from every reachable state every run can be brought to a verdict by registering, claiming and the two sweeps alone: no worker report, no cancellation |
| Liveness.StepTowards | internal/engine/promote.go:92-119 | while a run is open, such transactions exist that use up some of its remaining weight |
| Accounts.StartOutcome | internal/engine/tasks.go:185-240 | in every reachable state a committed start was made by the holder of the leased attempt; it leaves task and run RUNNING and the attempt on record, changes no other column, and tells TASK_STARTED with the handler, followed by RUN_STARTED exactly if the run was QUEUED |
| Accounts.SuccessOutcome | internal/engine/outcome.go:53-85 | in every reachable state a committed success leaves the task SUCCEEDED with its output and no lease, makes claimable from that instant exactly the dependents whose every dependency has now succeeded, upserts the artifacts by name, and tells the success, each unlock in order, and the verdict if the run ends; no other row changes |
| Accounts.FailureOutcome | internal/engine/outcome.go:87-194 | in every reachable state a committed failure of attempt k leaves the task RETRYING exactly when it is not permanent and k is below the max_attempts of its step, and DEAD exactly otherwise; the row, the dead letters, the descendants, the events with their texts and the verdict are given for both |
| Accounts.CancelOutcome | internal/engine/cancel.go:30-84 | in every reachable state a committed cancellation ends what waits, makes every held lease due now, leaves ended rows alone, closes the run and tells RUN_CANCELLED with the reason and nothing else |
| Accounts.ClaimOutcome | internal/engine/tasks.go:47-104 | in every reachable state a committed claim of any batch leaves each picked row LEASED to the worker until the deadline, one attempt further and not expired before the deadline, every other row as it was, and tells each run one TASK_LEASED per picked task of it, in order |
| Accounts.PromotionOutcome | internal/engine/promote.go:20-80 | in every reachable state a committed promotion leaves each picked row READY and claimable, otherwise unchanged, every other row as it was, and tells each run one TASK_SCHEDULED per picked task of it, with the attempts consumed |
| Accounts.ExpiryOutcome | internal/engine/reaper.go:71-211 | in every reachable state each picked row of an expiry batch, over any mix of runs, loses worker and lease and is READY from that instant exactly when its run is open and its attempts are below the max_attempts of its step, and DEAD otherwise; any other row is as it was, or was PENDING and died |
| Accounts.RenewalOutcome | internal/engine/reaper.go:347-375 | a renewal moves exactly the deadlines of the named rows the worker holds, and nothing else in the database |
| Accounts.SweepAnnounces | internal/engine/reaper.go:220-337 | in every reachable state a sweep adds to each run's journal exactly one WORKER_LOST for each worker declared lost that held a task of it while it was open, in order, carrying the leases that worker held over all runs, and replay's workersLost rises by as many |
| Accounts.RetirementAnnounces | internal/engine/workers.go:131-158 | in every reachable state a retirement stops the worker and tells each run in the same way, or changes nothing when the worker is unknown or already gone |
| Accounts.RetirementMovesLeases | internal/engine/workers.go:131-158 | a retirement ends exactly the leases of its worker, at its instant, and moves no other row |
| Accounts.ReleasedIff | internal/engine/reaper.go:283-291 | the leases counted in WORKER_LOST are exactly the rows, of whatever run, that the worker holds |
| Accounts.SweepReclassifies | internal/engine/reaper.go:220-277 | what a sweep makes of every worker, from its status and last heartbeat against the two thresholds; heartbeats are not moved |
| Accounts.HeartbeatSpares | internal/engine/workers.go:68-86 | a worker heard from at an instant stays alive through every continuation whose sweeps look back less far than that and which does not retire it |
| Accounts.EveryRunWasCreated | internal/engine/runs.go:21-123 | every run in a reachable database was created by a committed creation of the schedule |
| Accounts.CreationRemembered | internal/replay/reduce.go:77-82 | in every state after it, replay of the run yields the name, version and hash of its definition and the scenario and seed that its creating transaction carried |
| Accounts.RunningIff | internal/engine/tasks.go:225-240 | of every reachable run the recorded attempts are exactly those its journal says started; while open it is RUNNING exactly when there is one; and the journal holds exactly one RUN_STARTED from then on and none before |
| Accounts.SuccessesStarted | internal/engine/state.go:81-87 | of every reachable run never cancelled, the attempt a task succeeded on is on record; and a run that succeeded was told RUN_STARTED exactly once, so that none ever takes the way from QUEUED to SUCCEEDED that the transition table allows |
| Accounts.ReplayReads | internal/replay/reduce.go:70-258 | of every reachable run: replay's faults and skipped effects are the events that report them, in order and with their tasks; lost workers are counted by theirs; a task's handler is that of its last start; its error is that of its last failure, nothing once it succeeded, or the reason it was dead-lettered if it never failed; a cancelled run's failure reason is the reason given, a failed run's says how many tasks of how many did not succeed |
| System.ExecGood | internal/engine/outcome.go:13-51 | every schedule from a database satisfying the invariant ends in one, and every run in between only evolves |
| System.Reachable | internal/engine/outcome.go:13-51 | every reachable database satisfies the invariant of every run |
| System.ApplyGood | internal/engine/outcome.go:13-51 | each of the fourteen transaction kinds keeps the invariant and the evolution order |
| System.ClaimBatch | internal/engine/tasks.go:76-104 | a batch of READY tasks is claimed as a whole, keeping every run's invariant |
| System.PromoteBatch | internal/engine/promote.go:62-75 | a batch of RETRYING tasks is promoted as a whole, keeping every run's invariant |
| System.ExpireBatch | internal/engine/reaper.go:89-138 | a batch of held tasks is expired as a whole, each entry still as selected when its turn comes |
| Steps.ClaimKeeps | internal/engine/tasks.go:47-104 | claiming a READY task commits and keeps the invariant: rows and reduced journal still agree; what it writes is `Accounts.ClaimOutcome` |
| Steps.StartKeeps | internal/engine/tasks.go:185-240 | starting commits exactly for the leaseholder of an open run, never meets a recorded attempt, and keeps the invariant, with or without the run's own start; what it writes is `Effects.StartEffect` |
| Steps.PromoteKeeps | internal/engine/promote.go:20-80 | promoting a RETRYING task commits and keeps the invariant |
| Steps.NoteKeeps | internal/engine/outcome.go:419-442 | fault and skipped-effect events keep the invariant |
| Steps.AnnounceKeeps | internal/engine/reaper.go:297-337 | announcing a lost worker keeps the invariant of every run, open or closed; who is told, and what, is `Accounts.SweepAnnounces` |
| Steps.MoveLeasesKeeps | internal/engine/reaper.go:283-291 | no claim of the invariant depends on a deadline, so clocks need not agree |
| Outcomes.SucceedKeeps | internal/engine/outcome.go:53-85 | a success commits exactly when held, storable and open, and keeps the invariant through artifacts, unlocks and the verdict |
| Outcomes.UnlockBalances | internal/engine/outcome.go:200-246 | after a success no task is left PENDING with every dependency succeeded |
| Outcomes.UnlockEachKeeps | internal/engine/outcome.go:213-245 | each unlock in turn keeps rows and reduced journal in agreement and promotes exactly the listed tasks whose dependencies succeeded |
| Outcomes.AbandonKeeps | internal/engine/outcome.go:251-270 | everything below a dead task is dead-lettered, each one a PENDING row that the guard hits, and rows and journal still agree |
| Outcomes.SettleKeeps | internal/engine/outcome.go:294-343 | settling never meets an illegal transition and closes a run exactly when no task can progress, with the right verdict |
| Outcomes.UpsertKeepsLast | internal/engine/outcome.go:367-387 | upserting artifacts one by one leaves, under each name, the last one emitted |
| Recovery.FailKeeps | internal/engine/outcome.go:87-168 | a failure commits exactly when held and open, and keeps the invariant whether it retries or buries the task and its descendants; which of the two, and what it writes, is `Effects.FailureEffect` |
| Recovery.ExpireKeeps | internal/engine/reaper.go:71-211 | expiring a held task always commits, keeps the invariant, and changes no other held row |
| Recovery.ReleaseKeeps | internal/engine/reaper.go:394-405 | ending a held task of a closed run keeps the invariant without an event |
| Recovery.CancelKeeps | internal/engine/cancel.go:30-84 | cancelling commits exactly while the run is open and keeps the invariant |
| Recovery.CreateKeeps | internal/engine/runs.go:21-123 | a created run satisfies the invariant: one row per step, the roots READY and announced, the rest PENDING |
| Effects.StartEffect | internal/engine/tasks.go:185-240 | what starting a task writes and tells, column by column and event by event |
| Effects.SuccessEffect | internal/engine/outcome.go:53-85 | what a success writes and tells: its own row, the dependents that became ready, the artifacts, the verdict |
| Effects.SettleEffect | internal/engine/outcome.go:294-343 | settling an open run closes it exactly when every task has ended, as FAILED exactly if one is dead, and tells how many succeeded, or how many of how many did not |
| Effects.AbandonEffect | internal/engine/outcome.go:251-270 | abandoning a list of tasks below a dead one ends exactly those that wait, each with a dead letter, leaves every other row alone, and tells each death in the order of the list with the reason |
| Effects.FailureEffect | internal/engine/outcome.go:87-194 | what a failure writes and tells, for a retry and for a death, the truncated error included |
| Effects.ExpiryEffect | internal/engine/reaper.go:89-211 | what the expiry of one lease writes and tells: a requeue, a death with all that follows from it, or in a closed run the row alone |
| Effects.CreationEffect | internal/engine/runs.go:21-123 | a run is created only under the hash of its definition, with one row per step holding the declared attempts, and a journal that says how it was created, which steps can start, in order, and how many tasks there are |
| Effects.DeclaredPolicy | internal/workflow/definition.go:175-182 | a step's retry policy is the one it declares, or three attempts, one second doubling up to thirty, and jitter of a fifth |
| Evolution.EvolvesTransitive | internal/engine/state.go:94-111 | the order in which rows evolve composes: attempts never fall, weights fall with every status change, ended tasks stay ended, closed runs stay as they are |
| History.AttemptConservation | internal/replay/reduce.go:127-217 | in every legal history each task's counters add up and attempts never exceed max_attempts |
| History.AttemptsTallied | internal/replay/reduce.go:127-217 | in every legal history how often an attempt was leased, started, won, given up, or its task first scheduled or buried, is fixed by the reduced state |
| History.ScheduledAfterDependencies | internal/engine/outcome.go:196-246 | a task's first scheduling comes after TASK_SUCCEEDED of each of its dependencies |
| History.TerminalEventIsLast | internal/event/type.go:63-70 | in every legal history a terminal event is the last |
| History.TransitionsAreLegal | internal/engine/state.go:80-111 | every status change any legal event makes, of a run or of a task, is in the transition tables |
| Replay.Reduce | internal/replay/reduce.go:29-58 | the mutating loop returns exactly the fold over the journal, errors included; what the fold reads out of a journal is `Narration.ReplayReadsRun`, `ReplayReadsHandler`, `ReplayReadsError` and, of the tasks, `History.AttemptsTallied` |
| Replay.Reducer.Apply | internal/replay/reduce.go:70-258 | one event changes the state as the fold says, or leaves it untouched if it does not decode; field by field that is `Narration.ReplayReadsRun` |
| Narration.ReplayReadsRun | internal/replay/reduce.go:70-125 | of every accepted journal: the header is that of its last RUN_CREATED, faults and skipped effects are the reporting events in order, lost workers are counted by theirs, and the failure reason is that of the event that ended the run |
| Narration.ReplayReadsHandler | internal/replay/reduce.go:127-258 | of every accepted journal a task's handler is that of its last start |
| Narration.ReplayReadsError | internal/replay/reduce.go:127-258 | of every legal history a task's error, from its last failure, its success and its dead letter alone |
| Narration.FailureCounts | internal/engine/outcome.go:316-330 | a legal history that ends in failure says how many tasks were lost, of how many |
| Narration.HeaderIsFirst | internal/replay/reduce.go:77-82 | a legal history begins with RUN_CREATED and holds no other, and replay yields exactly what it says |
| Replay.ReduceAcceptsIff | internal/replay/reduce.go:29-58 | a journal is accepted exactly when it is numbered from one without a gap, every type is known, every payload decodes, and nothing follows a terminal event |
| Replay.FoldErrSticks | internal/replay/reduce.go:36-56 | a refused prefix is refused with the same error whatever follows |
| Replay.VersionGate | internal/replay/decode.go:12-26 | the exact set of payload versions replay admits |
| Replay.UnknownVersionsAdmitted | internal/replay/reduce.go:91-92 | two accepted journals with a version this build does not know |
| Tables.Append | internal/event/log.go:54-120 | an append is refused exactly when the run is closed; otherwise the history grows by exactly this event, numbered one past the counter, which moves with it, and no other column changes |
| Engine.CollectDescendants | internal/engine/outcome.go:274-291 | the queue loop returns the specified breadth-first closure |
| Workflow.DescendantsIff | internal/engine/outcome.go:274-291 | that closure is, without repeats and without the root, exactly the steps with a dependency path to it |
| Workflow.DependentsIff | internal/workflow/definition.go:197-208 | Dependents inverts depends_on |
| Workflow.StuckSetHasCycle | internal/workflow/validate.go:136-189 | a nonempty set of steps each waiting for another member contains a cycle |
| Engine.UnlockAll | internal/engine/outcome.go:200-246 | the loop over dependents and their dependencies promotes as the transaction does |
| Engine.AbandonAll | internal/engine/outcome.go:251-270 | the loop over descendants dead-letters as the transaction does, errors included |
| Engine.StoreArtifacts | internal/engine/outcome.go:367-387 | the upsert loop writes the rows of the transaction |
| Engine.InsertAll | internal/engine/runs.go:78-105 | the loop over steps inserts and announces as the transaction does |
| Engine.RecordSuccess | internal/engine/outcome.go:53-85 | the statement sequence of a success, with every refusal, is the transaction Succeed |
| Engine.RecordFailure | internal/engine/outcome.go:87-194 | the statement sequence of a failure, with every refusal, is the transaction Fail, whose rows and events are `Effects.FailureEffect` |
| Engine.ExpireOne | internal/engine/reaper.go:89-138 | one entry of the sweep is the transaction Expire, and is counted as requeued exactly when attempts remain in an open run |
| Engine.Engine.CreateRun | internal/engine/runs.go:21-123 | commits exactly the creation transaction, or rolls back with its refusal |
| Engine.Engine.ClaimTasks | internal/engine/tasks.go:47-104 | commits exactly the claim of the selected rows, whose outcome is `Accounts.ClaimOutcome`, or rolls back |
| Engine.Engine.StartTask | internal/engine/tasks.go:185-240 | commits exactly the start transaction, whose outcome is `Accounts.StartOutcome`, or rolls back with its refusal |
| Engine.Engine.CompleteTask | internal/engine/outcome.go:32-51 | commits exactly the success or failure transaction, whose outcomes are `Accounts.SuccessOutcome` and `FailureOutcome`, or rolls back with its refusal |
| Engine.Engine.ExpireLeases | internal/engine/reaper.go:71-142 | commits exactly the expiry of the selected rows; every expired lease is counted once, as requeued or dead |
| Engine.Engine.PromoteDueRetries | internal/engine/promote.go:20-80 | commits exactly the promotion of the selected rows, or rolls back |
| Engine.Engine.CancelRun | internal/engine/cancel.go:30-84 | the statement sequence, two updates row by row, the event, then the run row, commits exactly the cancellation or rolls back with its refusal |
| Engine.StopThenExpire | internal/engine/cancel.go:48-65 | the two updates in a row are one update by status: the first leaves alone the rows the second is for |
| Engine.Engine.Announce | internal/engine/reaper.go:297-337 | the affected runs get WORKER_LOST, in whatever order they are visited; which runs, and what they are told, is `Accounts.SweepAnnounces` |
| Engine.Engine.SweepWorkers | internal/engine/reaper.go:220-277 | commits exactly the sweep of the workers table and of the lost workers' leases, whose outcome is `Accounts.SweepAnnounces`, `SweepReclassifies` and `Futures.SweepExpiresLeases` |
| Engine.Engine.RetireWorker | internal/engine/workers.go:131-158 | commits exactly the retirement, whose outcome is `Accounts.RetirementAnnounces`; a worker already gone changes nothing |
| Engine.Engine.RenewLease | internal/engine/reaper.go:347-375 | renews exactly the requested tasks the worker still holds, and reports exactly those |
| Engine.CommitsKeepInv | internal/engine/outcome.go:13-51 | whatever a method commits keeps the invariant and the evolution order |
| Journal.ReadFrom | internal/event/log.go:134-168 | all rows are returned exactly when contiguous after the given position and of known types; otherwise the first offending row is reported, a gap before an unknown type |
| Journal.TailReadsBack | internal/event/log.go:131-168 | of every reachable run a read from any position reports no gap exactly when the position is not negative, and completes what was read before to the whole journal |
| Journal.NegativeTailReportsGap | internal/event/log.go:143-158 | from any negative position every reachable run reports a gap before its first event |
| Journal.TailFromMinusOne | internal/event/log.go:143-158 | a run that was just created, read from -1, reports expecting 0 and finding 1 |
| Validation.CycleFinder.Walk | internal/workflow/validate.go:154-177 | the walk returns a simple cycle, or finishes everything reachable in an order in which dependencies come first |
| Validation.FindCycle | internal/workflow/validate.go:139-189 | nothing is returned exactly when the definition is acyclic; otherwise a real cycle of depends_on edges that visits no step twice |
| Validation.Validate | internal/workflow/validate.go:41-134 | every problem reported is there and every problem there is reported, a cycle by one real example exactly when the rest is in order and there is one; the missing root exactly when the rest is in order and no step can start, then always beside a cycle; problems are empty exactly when the definition is acceptable, and then it is sound for the engine |
| Validation.LoopOfTwo | internal/workflow/validate.go:117-128 | two steps that wait for each other are reported as a cycle and as a missing root |
| Validation.CheckSteps | internal/workflow/validate.go:56-87 | the first pass reports exactly the problems of single steps and of names used again, each against its first use, and records where each usable name was first used |
| Validation.StepsCleanIff | internal/workflow/validate.go:56-87 | no such problem exists exactly when names are unique and every step is well formed |
| Validation.RetryProblemsIff | internal/workflow/validate.go:191-218 | exactly what is wrong with a retry policy is reported, and nothing exactly of a policy that can work |
| Validation.CheckDependencies | internal/workflow/validate.go:90-112 | the second pass reports exactly, for each dependency, that it is the step itself, or else listed before, or else not a usable name |
| Validation.DependenciesCleanIff | internal/workflow/validate.go:90-112 | no such problem exists exactly when every dependency is another step with a usable name, listed once |
| Validation.AcceptedIsSound | internal/workflow/definition.go:122-142 | an accepted definition has unique resolved names, no cycle and at least one attempt per step |
| Validation.HasRoot | internal/workflow/validate.go:121-127 | a sound definition has a step that can start |
| Validation.NoRootMeansCycle | internal/workflow/validate.go:121-127 | resolved steps with names of their own, none of which can start, form a cycle |
| Diff.Compare | internal/replay/diff.go:72-109 | the report holds exactly the differences between the two states: none missed, none invented |
| Diff.CompareTasks | internal/replay/diff.go:111-147 | exactly the differences about tasks, missing and extra ones included |
| Diff.CompareArtifacts | internal/replay/diff.go:151-195 | exactly the names whose last digests differ or exist on one side only |
| Diff.CompareFaults | internal/replay/diff.go:200-220 | a different number of faults, or else exactly the positions that differ |
| Diff.MatchIffSameProjection | internal/replay/diff.go:66-109 | nothing diverges exactly when the two states agree on the compared projection, so matching is an equivalence |
| Diff.VerifyArtifacts | internal/replay/load.go:60-74 | exactly the artifacts on which journal and table disagree, and so nothing exactly when they agree throughout |
| Diff.EngineArtifactsVerify | internal/replay/load.go:58-74 | for every reachable run, cancelled or not, and its artifact rows, VerifyArtifacts has nothing to report |
| Ledger.Agreement | internal/idem/idem.go:75-155 | under any interleaving, with crashes between any two steps, a key is recorded exactly when it has a writer, the record is what that call's effect returned, every call that returned under the key returned the record, and was told it was first exactly if it is the writer |
| Ledger.RecordsNeverChange | internal/idem/idem.go:137-155 | no continuation changes a record or its writer |
| Ledger.EffectsAfterRecord | internal/idem/idem.go:8-14 | once a key is recorded its effect runs only in calls that had already looked up and missed, and at most once in each |
| Ledger.FailureRecordsNothing | internal/idem/idem.go:68-74 | a call whose effect failed, or that crashed without having inserted, is nobody's writer in any continuation, and no step of it ever changed the table |
| Ledger.OnlyWritersChangeRows | internal/idem/idem.go:137-155 | the table changes only by an insert into an empty place, by a call that is the key's writer from then on |
| Ledger.CrashAfterInsertRecords | internal/idem/idem.go:8-14 | a call that crashes between its insert and its return is the recorder all the same |
| Ledger.Table.Do | internal/idem/idem.go:75-110 | the effect runs exactly when nothing was recorded at lookup, the caller gets what the table holds, and skipped says exactly whether someone else recorded it |
| Ledger.SkippedAfterRunningIff | internal/idem/idem.go:61-110 | a call that returned ran the effect exactly when nothing was recorded at its lookup, and was told it skipped although it ran exactly when moreover another call is the key's writer |
| Ledger.BothRanIff | internal/idem/idem.go:61-110 | two calls under one key that got past their lookup and did not crash both run the effect exactly when nothing was recorded at either lookup |
| Ledger.EveryCallBegins | internal/idem/idem.go:75-82 | every call began with a lookup under its key, to which the two results above apply |
| Ledger.OverlappingCallsBothRun | internal/idem/idem.go:99-109 | two overlapping calls that both run the effect, the beaten one told it skipped |
| Limiter.ForgettingChangesNothing | internal/api/access.go:142-189 | every answer is that of a bucket per client that is never forgotten, or a refusal for lack of room |
| Limiter.WindowBound | internal/api/access.go:157-189 | in any window of ordered requests a client is admitted at most burst plus rate times its length |
| Limiter.MapIsBounded | internal/api/access.go:157-189 | the map never exceeds 10,000 clients, or the number reserved at start-up if that is more |
| Limiter.IdleIsFull | internal/api/access.go:142-155 | the integer idle test, truncation included, implies a full bucket |
| Limiter.AdmittedIff | internal/api/access.go:157-189 | in any ordered run of requests a client is admitted exactly when there is room for it and its bucket, never forgotten, holds a token; it then pays exactly one, and nobody else pays anything |
| Limiter.NoRoomIff | internal/api/access.go:145-176 | there is no room exactly for an unknown client while 10,000 clients are recent, which counts those the eviction keeps |
| Limiter.LevelRefills | internal/api/access.go:176-180 | a level refills in proportion to the time passed, up to the burst |
| Limiter.ClientLimiter.AllowClient | internal/api/access.go:157-189 | the in-place update is the specified step |
| Limiter.ClientLimiter.Evict | internal/api/access.go:145-155 | exactly the idle clients are deleted, in whatever order |
| Injection.Injector.Point | internal/fault/inject.go:80-97 | whatever was evaluated before, and whatever becomes of each fault this time, a site records exactly the firings of a first evaluation without memory, and ends as that does: passed, in an error, or with the process gone |
| Injection.Injector.Decide | internal/fault/inject.go:119-143 | the memory answers as a fresh draw would, and the sign of the draw says whether it fires |
| Injection.FiresIff | internal/fault/inject.go:130-142 | a fault's draw is non-negative exactly when it is explicit or its value is below its probability; the draw is its position, or its value in billionths |
| Injection.EndsIff | internal/fault/inject.go:80-168 | an evaluation ends in an error, or with the process gone, exactly when some fault is reached that ends it so; otherwise it passes |
| Injection.DrawKeyInjective | internal/fault/inject.go:119-120 | different faults, tasks or attempts never share a remembered draw, whatever the task is called |
| Injection.AppliedIff | internal/fault/inject.go:80-168 | in every evaluation, however it ends, a fault is applied exactly when every fault before it matches and applying each that fires returns, and it matches, fires and is recorded itself, all before the process ends; a crash, a failure, an interrupted latency and an unwritten record each stop the evaluation |
| Injection.AllAppliedIff | internal/fault/inject.go:75-97 | every fault meant to fire at a site is applied exactly when, for each, nothing before it stops the evaluation by mismatch, failure, crash, interruption or a missing record, and its own record is written |
| Injection.CanBeAppliedIff | internal/fault/apply.go:34-113 | from the scenario and the draws alone: some evaluation applies a fault exactly when it matches and fires, all faults before it match, and those that fire are latencies or duplicate deliveries |
| Injection.AlwaysAppliedIff | internal/fault/apply.go:34-113 | from the scenario and the draws alone: every evaluation undisturbed from outside applies a fault exactly when it matches and fires, all faults before it match, and those that fire are duplicate deliveries |
| Injection.ShadowedByMismatch | internal/fault/inject.go:84-87 | a fault for one task, listed after a fault for another, is never applied |
| Injection.ShadowedByFailure | internal/fault/inject.go:92-94 | a fault listed after one that fails the same task is never applied |
| Injection.ShadowedByCrash | internal/fault/apply.go:54-69 | a fault listed after a crash of its worker is not applied, and the evaluation never returns |
| Injection.ShadowedByInterruptedLatency | internal/fault/apply.go:71-87 | a fault listed after a latency is applied when the delay runs out and not when the task's context ends first |
| Injection.ShadowedByRefusal | internal/fault/inject.go:155-161 | a fault is not applied when its own record, or that of a firing fault before it, cannot be written |
| Encoding.KeyInjective | sdk/context.go:116-122 | distinct runs, valid task names or operations give distinct idempotency keys, whatever the operation is called |
| Encoding.ColonCollides | internal/workflow/validate.go:222-240 | with a colon allowed in names two operations would share a key |
| Encoding.UuidTextInjective | internal/idem/idem.go:31-39 | the text form of a UUID has 36 characters and determines it |
| Encoding.WriteDraw | internal/engine/rng.go:39-52 | the loop writes the specified bytes |
| Encoding.DrawRoundTrip | internal/engine/rng.go:39-52 | decoding gives back seed and parts exactly when every part is shorter than 2^32 bytes |
| Encoding.DrawsDistinct | internal/engine/rng.go:33-52 | draws with such parts are seeded alike only if they are the same draw |
| Encoding.LongPartsCollide | internal/engine/rng.go:47-52 | one part of 2^32 zero bytes is written like 2^30 + 1 empty ones |
| Backoff.Delay | internal/retry/retry.go:66-93 | the branches compute the truncated, jittered, capped delay |
| Backoff.DelayBound | internal/retry/retry.go:54-93 | for every accepted policy with a cap, every attempt and draw, the delay is within jitter of the capped delay, and between zero and max_delay x (1 + jitter) |
| Backoff.DelayNeverFalls | internal/retry/retry.go:66-85 | without jitter the delay never falls as attempts grow and never exceeds the cap, through the overflow guard too |
| Backoff.JitterSpreads | internal/retry/retry.go:54-93 | a draw moves the delay in proportion from 1 - jitter of it, at zero, towards 1 + jitter of it, at one; without a random source it stays |
| Backoff.MeetsDocumentation | internal/retry/retry.go:54-85 | for every accepted policy with a cap, the capped delay is the documented one exactly unless there is no initial delay and the growth overflows, or the multiplier is below one and scaling would move the delay |
| Backoff.RetriesNeverShrink | internal/retry/retry.go:47-52 | whenever a retry follows a failure of an accepted policy, the multiplier is at least one |
| Backoff.NoDelayJumpsToCap | internal/retry/retry.go:72-82 | such a policy, waiting nothing before its third failure and the cap after it |
| Backoff.ShrinkingIsIgnored | internal/retry/retry.go:70-83 | an accepted policy of one attempt whose multiplier of one half leaves the delay where it is |

## Left out

- PostgreSQL, pooling, deadlocks and serialization failures: an aborted transaction changes nothing, and row locks are what makes a transaction atomic here.
- LIMIT, ORDER BY and SKIP LOCKED: a batch is any selection of distinct eligible rows; the methods take the selected rows as an argument.
- Handler execution, timeouts, panics, signals and the worker's own loops: a crash is the absence of further transactions by that worker.
- Random sources, hashes and clocks: parameters, never assumed to agree with one another.
- YAML and JSON parsing, canonical marshalling and definition hashes: definitions and payloads are datatypes with a version field.
- Wall-clock columns, durations, worker metadata and error columns of tasks: replay does not claim to reproduce them.
- The texts and order of validation problems and divergences: only which ones are reported.
- Byte length of names: a name is measured in characters, which agrees with bytes for every name the validator accepts.
- An injector without a record function, and ShouldDuplicate, which the executor consults on its own: firings are always recorded here, and duplicate delivery only adds ledger calls.
- Database errors inside the ledger, and the normal form in which the database stores JSON results.
- Backoff with max_delay of zero or less: the bound is stated for policies with a cap; validation accepts others.
- Floating-point rounding in delays and token buckets: both are over reals, with the float limit of the delay as a parameter.
- Read-only listings, paging, statistics, CLI, HTTP routing, authentication, telemetry, export and the dashboard: they read or present the state modelled here and decide nothing about it.
- The single-statement operations RegisterWorker, Heartbeat and RecordNote of the class `Engine.Engine`: they are the transactions of `System.Tx` as written, and what is proved of those is stated in `Accounts`, `Effects` and `Futures`.
- The contents of a fault or skipped-effect note, such as the first attempt read from the attempts table: a note may carry any payload of its kind, so what is proved holds whatever it says.
- Replay totals such as TotalAttempts and MaxRetries: sums and maxima of counters covered by AttemptConservation.

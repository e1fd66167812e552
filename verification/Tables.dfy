/**
 One run's rows and the transactions on them (internal/engine/outcome.go, reaper.go, tasks.go,
 runs.go, cancel.go, promote.go and internal/event/log.go). A Run value gathers the run row, its
 task rows, attempts, dead letters, artifacts and journal. Each function is what one committed
 transaction, or one batch entry of it, does to the run; a refusal rolls everything back.
 */
module Tables {
  import opened Common
  import opened Statuses
  import opened Events
  import opened Workflow
  import opened Text

  datatype TaskRow = TaskRow(
    attempt: int,
    maxAttempts: int,
    status: TaskStatus,
    worker: Option<WorkerId>,
    lease: Option<Time>,       // lease_expires_at
    scheduledAt: Time,
    output: string)

  datatype Run = Run(
    def: Definition,
    status: RunStatus,
    eventSeq: int,
    completed: bool,           // completed_at IS NOT NULL
    tasks: map<Name, TaskRow>,
    attempts: set<(Name, int)>,
    deadLetters: map<Name, int>,
    artifacts: map<Name, map<string, Artifact>>,
    journal: seq<Event>)

  datatype Refusal =
    | LeaseLost
    | ConcurrentAttempt
    | RunClosed
    | RunFinished
    | IllegalTransition
    | DefinitionMismatch
    | ConstraintViolation
    | NotFound
    | NotSelectable            // a batch the SELECT could not have returned

  type Outcome = Result<Run, Refusal>

  // ---------------------------------------------------------------- the journal

  /** Allocate the next sequence number and insert the event. */
  function Log(r: Run, n: Name, p: Payload): Run {
    r.(eventSeq := r.eventSeq + 1,
       journal := r.journal + [Event(r.eventSeq + 1, n, Some(PAYLOAD_VERSION), p)])
  }

  /**
   event.Append: refused exactly for a closed run, which keeps the terminal event last; otherwise
   the history grows by this one event, numbered by the counter, and no other column changes.
   */
  function Append(r: Run, n: Name, p: Payload): (out: Outcome)
    ensures out.Ok? <==> !r.completed
    ensures out.Ok? ==>
              && r.journal < out.value.journal && |out.value.journal| == |r.journal| + 1
              && out.value.journal[|r.journal|] == Event(out.value.eventSeq, n, Some(PAYLOAD_VERSION), p)
              && out.value.eventSeq == r.eventSeq + 1
              && out.value.(eventSeq := r.eventSeq, journal := r.journal) == r
  {
    if r.completed then Err(RunClosed) else Ok(Log(r, n, p))
  }

  // ---------------------------------------------------------------- row helpers

  function SetRow(r: Run, n: Name, row: TaskRow): Run {
    r.(tasks := r.tasks[n := row])
  }

  /** The WHERE clause a worker's own updates carry. */
  predicate HeldBy(r: Run, n: Name, statuses: set<TaskStatus>, w: WorkerId, k: int) {
    && n in r.tasks
    && r.tasks[n].status in statuses
    && r.tasks[n].worker == Some(w)
    && r.tasks[n].attempt == k
  }

  function WithStatus(r: Run, status: TaskStatus): set<Name> {
    set n | n in r.tasks && r.tasks[n].status == status
  }

  // ---------------------------------------------------------------- creating a run

  function InitialRow(d: Definition, step: Step, now: Time): TaskRow {
    TaskRow(0, MaxAttempts(d, step.name), if step.dependsOn == [] then TaskReady else TaskPending,
            None, None, now, "")
  }

  /** One task row per step; only steps that can be claimed at once are announced. */
  function InsertTasks(r: Run, steps: seq<Step>, now: Time): Run
    decreases |steps|
  {
    if steps == [] then r
    else
      var step := steps[0];
      var inserted := SetRow(r, step.name, InitialRow(r.def, step, now));
      var announced := if step.dependsOn == []
        then Log(inserted, step.name, TASK_SCHEDULED(0, step.dependsOn)) else inserted;
      InsertTasks(announced, steps[1..], now)
  }

  function NewRun(d: Definition): Run {
    Run(d, RunCreated, 0, false, map[], {}, map[], map[], [])
  }

  function CreateRun(d: Definition, workflowHash: string, scenario: string, seed: int, now: Time): Outcome {
    if d.hash != workflowHash then Err(DefinitionMismatch)
    else
      var created := Log(NewRun(d), "", RUN_CREATED(d.name, d.version, d.hash, scenario, seed));
      var inserted := InsertTasks(created, d.steps, now);
      Ok(Log(inserted.(status := RunQueued), "", RUN_QUEUED(|d.steps|)))
  }

  // ---------------------------------------------------------------- claiming and starting

  predicate Claimable(r: Run, n: Name, now: Time) {
    n in r.tasks && r.tasks[n].status.TaskReady? && r.tasks[n].scheduledAt <= now
  }

  /** The attempt is consumed here, at claim time. */
  function Claim(r: Run, n: Name, w: WorkerId, leaseUntil: Time): Outcome
    requires n in r.tasks
  {
    var row := r.tasks[n];
    var leased := row.(status := TaskLeased, worker := Some(w), lease := Some(leaseUntil),
                       attempt := row.attempt + 1);
    var logged :- Append(SetRow(r, n, leased), n, TASK_LEASED(leased.attempt));
    if Find(r.def.steps, n).None? then Err(NotFound) else Ok(logged)
  }

  function MarkRunStarted(r: Run): Outcome {
    if r.status.RunQueued? then Append(r.(status := RunRunning), "", RUN_STARTED) else Ok(r)
  }

  function Start(r: Run, n: Name, w: WorkerId, k: int, handler: string): Outcome {
    if !HeldBy(r, n, {TaskLeased}, w, k) then Err(LeaseLost)
    else if (n, k) in r.attempts then Err(ConcurrentAttempt)
    else
      var running := SetRow(r, n, r.tasks[n].(status := TaskRunning)).(attempts := r.attempts + {(n, k)});
      var logged :- Append(running, n, TASK_STARTED(k, handler));
      MarkRunStarted(logged)
  }

  // ---------------------------------------------------------------- outcomes

  predicate HexDigest(s: string) {
    |s| == 64 && forall i :: 0 <= i < |s| ==> '0' <= s[i] <= '9' || 'a' <= s[i] <= 'f'
  }

  /** The CHECK constraints of the artifacts table. */
  predicate Storable(artifacts: seq<Artifact>) {
    forall i :: 0 <= i < |artifacts| ==> HexDigest(artifacts[i].sha256) && artifacts[i].size >= 0
  }

  function ArtifactsOf(r: Run, n: Name): map<string, Artifact> {
    if n in r.artifacts then r.artifacts[n] else map[]
  }

  /** INSERT ... ON CONFLICT (run_id, task_name, name) DO UPDATE, one artifact at a time. */
  function Upsert(rows: map<string, Artifact>, artifacts: seq<Artifact>): map<string, Artifact>
    decreases |artifacts|
  {
    if artifacts == [] then rows
    else Upsert(rows[artifacts[0].name := artifacts[0]], artifacts[1..])
  }

  function RecordArtifacts(r: Run, n: Name, artifacts: seq<Artifact>): Run {
    r.(artifacts := r.artifacts[n := Upsert(ArtifactsOf(r, n), artifacts)])
  }

  predicate Unlockable(r: Run, n: Name, done: set<Name>) {
    && n in r.tasks
    && r.tasks[n].status.TaskPending?
    && forall m :: m in Deps(r.def, n) ==> m in done
  }

  /** Promote each listed dependent that is PENDING with every dependency in `done`. */
  function UnlockEach(r: Run, names: seq<Name>, done: set<Name>, now: Time): Run
    decreases |names|
  {
    if names == [] then r
    else if !Unlockable(r, names[0], done) then UnlockEach(r, names[1..], done, now)
    else
      var n := names[0];
      var ready := SetRow(r, n, r.tasks[n].(status := TaskReady, scheduledAt := now));
      UnlockEach(Log(ready, n, TASK_SCHEDULED(0, Deps(r.def, n))), names[1..], done, now)
  }

  function UnlockDependents(r: Run, n: Name, now: Time): Run {
    UnlockEach(r, Dependents(r.def, n), WithStatus(r, TaskSucceeded), now)
  }

  /** End a task permanently. The row update is guarded; the event is not. */
  function DeadLetter(r: Run, n: Name, attempt: int, reason: string): Outcome
    requires n in r.tasks
  {
    var row := r.tasks[n];
    var guard := row.status in {TaskFailed, TaskPending, TaskReady, TaskRetrying};
    var dead := if guard then SetRow(r, n, row.(status := TaskDead, worker := None)) else r;
    var letter := if n in r.deadLetters then dead
      else dead.(deadLetters := dead.deadLetters[n := if attempt > 1 then attempt else 1]);
    Append(letter, n, TASK_DEAD_LETTERED(attempt, reason))
  }

  /** Dead-letter every listed task that has not ended already. */
  function AbandonEach(r: Run, names: seq<Name>, reason: string): Outcome
    decreases |names|
  {
    if names == [] then Ok(r)
    else if names[0] !in r.tasks then Err(NotFound)
    else if r.tasks[names[0]].status.Terminal() then AbandonEach(r, names[1..], reason)
    else
      var buried :- DeadLetter(r, names[0], r.tasks[names[0]].attempt, reason);
      AbandonEach(buried, names[1..], reason)
  }

  function AbandonDependents(r: Run, failed: Name): Outcome {
    AbandonEach(r, Descendants(r.def, failed), "upstream task " + failed + " did not succeed: ")
  }

  /** Once every task has ended, give the run its verdict. */
  function Settle(r: Run): Outcome {
    var total, succeeded, dead := |r.tasks|, |WithStatus(r, TaskSucceeded)|, |WithStatus(r, TaskDead)|;
    if succeeded + dead < total then Ok(r)
    else if !r.status.Open() then Ok(r)
    else
      var verdict := if dead > 0 then RunFailed else RunSucceeded;
      var payload := if dead > 0
        then RUN_FAILED(DEAD_LETTERED, ShortfallDetail(dead, total))
        else RUN_SUCCEEDED(succeeded);
      if !r.status.CanTransition(verdict) then Err(IllegalTransition)
      else
        var logged :- Append(r, "", payload);
        Ok(logged.(status := verdict, completed := true))
  }

  function Succeed(r: Run, n: Name, w: WorkerId, k: int, output: string,
                   artifacts: seq<Artifact>, now: Time): Outcome {
    if !HeldBy(r, n, {TaskRunning}, w, k) then Err(LeaseLost)
    else if !Storable(artifacts) then Err(ConstraintViolation)
    else
      var done := SetRow(r, n, r.tasks[n].(status := TaskSucceeded, lease := None, output := output));
      var logged :- Append(RecordArtifacts(done, n, artifacts), n, TASK_SUCCEEDED(k, output, artifacts));
      Settle(UnlockDependents(logged, n, now))
  }

  const ERROR_MAX_LEN := 2048

  function TruncateError(s: string): string {
    if |s| <= ERROR_MAX_LEN then s else s[..ERROR_MAX_LEN] + "... (truncated)"
  }

  function WillRetry(d: Definition, n: Name, k: int, permanent: bool): bool {
    !permanent && k < MaxAttempts(d, n)
  }

  /** `retryAt` is now plus the backoff the policy drew. */
  function Fail(r: Run, n: Name, w: WorkerId, k: int, error: string, permanent: bool, retryAt: Time): Outcome {
    var willRetry := WillRetry(r.def, n, k, permanent);
    if !HeldBy(r, n, {TaskRunning, TaskLeased}, w, k) then Err(LeaseLost)
    else
      var failed := SetRow(r, n, r.tasks[n].(status := TaskFailed, lease := None));
      var logged :- Append(failed, n, TASK_FAILED(k, TruncateError(error), willRetry));
      if willRetry then
        var retrying := logged.tasks[n].(status := TaskRetrying, scheduledAt := retryAt, worker := None);
        Append(SetRow(logged, n, retrying), n, TASK_RETRY_SCHEDULED(k, k + 1))
      else
        var reason := if permanent then "permanent failure" else "attempts exhausted";
        var buried :- DeadLetter(logged, n, k, reason + ": " + TruncateError(error));
        var abandoned :- AbandonDependents(buried, n);
        Settle(abandoned)
  }

  // ---------------------------------------------------------------- recovery

  predicate Expired(r: Run, n: Name, now: Time) {
    && n in r.tasks
    && r.tasks[n].status.Holds()
    && r.tasks[n].lease.Some?
    && r.tasks[n].lease.value <= now
  }

  /** End a held task whose run has already closed: the row changes, the journal does not. */
  function ReleaseAbandoned(r: Run, n: Name): Run
    requires n in r.tasks
  {
    if r.tasks[n].status.Holds()
    then SetRow(r, n, r.tasks[n].(status := TaskDead, worker := None, lease := None)) else r
  }

  /** `seen` is the row as the sweep selected it, before any of the batch was processed. */
  function Requeue(r: Run, n: Name, seen: TaskRow, now: Time): Outcome
    requires n in r.tasks
  {
    var row := r.tasks[n];
    if !seen.status.CanTransition(TaskReady) then Err(IllegalTransition)
    else if !(row.status.Holds() && row.attempt == seen.attempt) then Ok(r)
    else
      var ready := row.(status := TaskReady, worker := None, lease := None, scheduledAt := now);
      Append(SetRow(r, n, ready), n, TASK_REQUEUED(seen.attempt, seen.attempt + 1))
  }

  const EXPIRED_FOR_GOOD := "lease expired with no attempts remaining"

  function DeadLetterExpired(r: Run, n: Name, seen: TaskRow): Outcome
    requires n in r.tasks
  {
    var row := r.tasks[n];
    var guard := row.status.Holds() && row.attempt == seen.attempt;
    var dead := if guard then SetRow(r, n, row.(status := TaskDead, worker := None, lease := None)) else r;
    var letter := if n in r.deadLetters then dead
      else dead.(deadLetters := dead.deadLetters[n := if seen.attempt > 1 then seen.attempt else 1]);
    Append(letter, n, TASK_DEAD_LETTERED(seen.attempt, EXPIRED_FOR_GOOD))
  }

  /** What expireLeases does with one task of its batch. */
  function Expire(r: Run, n: Name, seen: TaskRow, now: Time): Outcome
    requires n in r.tasks
  {
    if r.status.Terminal() then Ok(ReleaseAbandoned(r, n))
    else
      var logged :- Append(r, n, TASK_LEASE_EXPIRED(seen.attempt));
      if seen.attempt < MaxAttempts(r.def, n) then Requeue(logged, n, seen, now)
      else
        var buried :- DeadLetterExpired(logged, n, seen);
        var abandoned :- AbandonDependents(buried, n);
        Settle(abandoned)
  }

  predicate Due(r: Run, n: Name, now: Time) {
    n in r.tasks && r.tasks[n].status.TaskRetrying? && r.tasks[n].scheduledAt <= now
  }

  function Promote(r: Run, n: Name): Outcome
    requires n in r.tasks
  {
    var row := r.tasks[n];
    Append(SetRow(r, n, row.(status := TaskReady)), n, TASK_SCHEDULED(row.attempt, []))
  }

  // ---------------------------------------------------------------- cancelling

  function CancelRow(row: TaskRow, now: Time): TaskRow {
    if row.status in {TaskPending, TaskReady, TaskRetrying}
    then row.(status := TaskDead, worker := None, lease := None)
    else if row.status.Holds() then row.(lease := Some(now))
    else row
  }

  function Cancel(r: Run, reason: string, now: Time): Outcome {
    if r.status.Terminal() then Err(RunFinished)
    else if !r.status.CanTransition(RunCancelled) then Err(IllegalTransition)
    else
      var stopped := r.(tasks := map n | n in r.tasks :: CancelRow(r.tasks[n], now));
      var logged :- Append(stopped, "", RUN_CANCELLED(reason));
      Ok(logged.(status := RunCancelled, completed := true))
  }

  // ---------------------------------------------------------------- leases and notes

  predicate HoldsLease(row: TaskRow, w: WorkerId) {
    row.status.Holds() && row.worker == Some(w)
  }

  function HeldTasks(r: Run, w: WorkerId): set<Name> {
    set n | n in r.tasks && HoldsLease(r.tasks[n], w)
  }

  /** Move the deadline of every task `w` holds among `names`. */
  function MoveLeases(r: Run, names: set<Name>, w: WorkerId, deadline: Time): Run {
    r.(tasks := map n | n in r.tasks ::
         if n in names && HoldsLease(r.tasks[n], w)
         then r.tasks[n].(lease := Some(deadline)) else r.tasks[n])
  }

  /** WORKER_LOST goes to each open run the worker was holding work for. */
  function AnnounceLost(r: Run, w: WorkerId, missedBeats: int, released: int): Run {
    if HeldTasks(r, w) != {} && !r.completed
    then Log(r, "", WORKER_LOST(missedBeats, released)) else r
  }

  /** A transaction that only appends: FAULT_INJECTED or SIDE_EFFECT_SKIPPED. */
  function Note(r: Run, n: Name, p: Payload): Outcome {
    if p.FAULT_INJECTED? || p.SIDE_EFFECT_SKIPPED? then Append(r, n, p) else Err(NotSelectable)
  }
}

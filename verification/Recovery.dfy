/** Failure, lease expiry, cancellation and creation keep the run invariant. */
module Recovery {
  import opened Common
  import opened Statuses
  import opened Events
  import opened Workflow
  import opened Replay
  import opened History
  import opened Tables
  import opened Invariant
  import opened Steps
  import opened Outcomes

  // ---------------------------------------------------------------- failure

  /** RUNNING or LEASED to FAILED: the first of the two facts recordFailure writes. */
  lemma {:induction false} FailedPush(r: Run, n: Name, k: int, error: string, willRetry: bool)
    requires Core(r, None) && r.status.Open() && |r.journal| > 0
    requires n in r.tasks && r.tasks[n].status.Holds() && r.tasks[n].attempt == k
    requires willRetry ==> k < MaxAttempts(r.def, n)
    ensures Core(Moved(r, n, r.tasks[n].(status := TaskFailed, lease := None), TASK_FAILED(k, error, willRetry)), None)
  {
    hide Mirror, Barrier, JournalOk, Sound;
    assert RowOk(r.tasks[n], MaxAttempts(r.def, n));
    LivePush(r, None, n, r.tasks[n].(status := TaskFailed, lease := None), TASK_FAILED(k, error, willRetry), None);
  }

  lemma {:induction false} RetryPush(r: Run, n: Name, k: int, retryAt: Time)
    requires Core(r, None) && r.status.Open() && |r.journal| > 0
    requires n in r.tasks && r.tasks[n].status.TaskFailed? && r.tasks[n].attempt == k < MaxAttempts(r.def, n)
    ensures Core(Moved(r, n, r.tasks[n].(status := TaskRetrying, scheduledAt := retryAt, worker := None),
                       TASK_RETRY_SCHEDULED(k, k + 1)), None)
  {
    hide Mirror, Barrier, JournalOk, Sound;
    assert RowOk(r.tasks[n], MaxAttempts(r.def, n));
    LivePush(r, None, n, r.tasks[n].(status := TaskRetrying, scheduledAt := retryAt, worker := None),
             TASK_RETRY_SCHEDULED(k, k + 1), None);
  }

  lemma {:induction false} FailKeeps(r: Run, n: Name, w: WorkerId, k: int, error: string, permanent: bool,
                                     retryAt: Time)
    requires RunInv(r)
    ensures var out := Fail(r, n, w, k, error, permanent, retryAt);
            && (out.Ok? <==> HeldBy(r, n, {TaskRunning, TaskLeased}, w, k) && !r.completed)
            && (out.Ok? ==> RunInv(out.value))
  {
    hide RunInv, DeadLetter, Settle, AbandonDependents, MaxAttempts;
    if HeldBy(r, n, {TaskRunning, TaskLeased}, w, k) && !r.completed {
      if WillRetry(r.def, n, k, permanent) {
        RetryKeeps(r, n, k, TruncateError(error), retryAt);
      } else {
        var reason := if permanent then "permanent failure" else "attempts exhausted";
        ExhaustedKeeps(r, n, k, TruncateError(error), reason + ": " + TruncateError(error));
      }
    }
  }

  lemma {:induction false} RetryKeeps(r: Run, n: Name, k: int, error: string, retryAt: Time)
    requires RunInv(r) && !r.completed
    requires n in r.tasks && r.tasks[n].status.Holds() && r.tasks[n].attempt == k < MaxAttempts(r.def, n)
    ensures var failed := Moved(r, n, r.tasks[n].(status := TaskFailed, lease := None), TASK_FAILED(k, error, true));
            var row := failed.tasks[n].(status := TaskRetrying, scheduledAt := retryAt, worker := None);
            var retrying := Moved(failed, n, row,
                                  TASK_RETRY_SCHEDULED(k, k + 1));
            RunInv(retrying) && !failed.completed
  {
    hide RunInv, Core, Settled;
    RowFacts(r, n);
    FailedPush(r, n, k, error, true);
    var failed := Moved(r, n, r.tasks[n].(status := TaskFailed, lease := None), TASK_FAILED(k, error, true));
    RetryPush(failed, n, k, retryAt);
    var retrying := Moved(failed, n, failed.tasks[n].(status := TaskRetrying, scheduledAt := retryAt, worker := None),
                          TASK_RETRY_SCHEDULED(k, k + 1));
    assert retrying.tasks == r.tasks[n := retrying.tasks[n]];
    LiveMoveSettles(r, retrying, n);
    Intro(retrying);
  }

  lemma {:induction false} ExhaustedKeeps(r: Run, n: Name, k: int, error: string, reason: string)
    requires RunInv(r) && !r.completed
    requires n in r.tasks && r.tasks[n].status.Holds() && r.tasks[n].attempt == k
    ensures var failed := Moved(r, n, r.tasks[n].(status := TaskFailed, lease := None), TASK_FAILED(k, error, false));
            && DeadLetter(failed, n, k, reason).Ok?
            && var dead := DeadLetter(failed, n, k, reason).value;
               && AbandonDependents(dead, n).Ok?
               && Settle(AbandonDependents(dead, n).value).Ok?
               && RunInv(Settle(AbandonDependents(dead, n).value).value)
  {
    hide RunInv, Core, Settled, Settle, AbandonDependents;
    RowFacts(r, n);
    FailedPush(r, n, k, error, false);
    var failed := Moved(r, n, r.tasks[n].(status := TaskFailed, lease := None), TASK_FAILED(k, error, false));
    FailedIsUnburied(failed, n);
    DeathPush(failed, None, n, k, reason, k);
    var dead := DeadLetter(failed, n, k, reason).value;
    assert dead.tasks == r.tasks[n := dead.tasks[n]];
    DeathSettles(r, dead, n);
  }

  lemma {:induction false} FailedIsUnburied(r: Run, n: Name)
    requires Core(r, None) && n in r.tasks && !r.tasks[n].status.TaskDead?
    ensures n !in r.deadLetters && RowOk(r.tasks[n], MaxAttempts(r.def, n))
  {
    hide Barrier, Sound, Legal, Fold;
    var s := Fold(r.journal).value;
    assert Agrees(r, n, n in s.tasks, TaskOf(s, n), false);
  }

  // ---------------------------------------------------------------- lease expiry

  /** TASK_LEASE_EXPIRED alone: the row is untouched and the task is mid-expiry. */
  lemma {:induction false} ExpiredPush(r: Run, n: Name, k: int)
    requires Core(r, None) && r.status.Open() && |r.journal| > 0
    requires n in r.tasks && r.tasks[n].status.Holds() && r.tasks[n].attempt == k
    ensures Core(Log(r, n, TASK_LEASE_EXPIRED(k)), Some(n))
  {
    hide Mirror, Barrier, JournalOk, Sound;
    assert RowOk(r.tasks[n], MaxAttempts(r.def, n));
    LivePush(r, None, n, r.tasks[n], TASK_LEASE_EXPIRED(k), Some(n));
    assert r.tasks[n := r.tasks[n]] == r.tasks;
  }

  lemma {:induction false} RequeuePush(r: Run, n: Name, k: int, now: Time)
    requires Core(r, Some(n)) && r.status.Open() && |r.journal| > 0
    requires n in r.tasks && r.tasks[n].status.Holds() && r.tasks[n].attempt == k < MaxAttempts(r.def, n)
    ensures Core(Moved(r, n, r.tasks[n].(status := TaskReady, worker := None, lease := None, scheduledAt := now),
                       TASK_REQUEUED(k, k + 1)), None)
  {
    hide Mirror, Barrier, JournalOk, Sound;
    assert RowOk(r.tasks[n], MaxAttempts(r.def, n));
    LivePush(r, Some(n), n, r.tasks[n].(status := TaskReady, worker := None, lease := None, scheduledAt := now),
             TASK_REQUEUED(k, k + 1), None);
  }

  /** `r'` has the same row as `r` for every task other than `n` that a worker holds. */
  predicate SparesHeld(r: Run, r': Run, n: Name) {
    forall x :: x in r.tasks && x != n && r.tasks[x].status.Holds() ==> x in r'.tasks && r'.tasks[x] == r.tasks[x]
  }

  /**
   One entry of the sweep's batch, on a row that is still as it was selected. It disturbs no
   other held row, so the next entry is still as selected too.
   */
  lemma {:induction false} ExpireKeeps(r: Run, n: Name, now: Time)
    requires RunInv(r) && n in r.tasks && r.tasks[n].status.Holds()
    ensures var out := Expire(r, n, r.tasks[n], now);
            out.Ok? && RunInv(out.value) && SparesHeld(r, out.value, n)
  {
    hide RunInv, Settle, AbandonDependents, DeadLetterExpired, Requeue, MaxAttempts, Log, ReleaseAbandoned,
         SparesHeld;
    RowFacts(r, n);
    if r.status.Terminal() {
      ReleaseKeeps(r, n);
    } else if r.tasks[n].attempt < MaxAttempts(r.def, n) {
      RequeueKeeps(r, n, now);
    } else {
      ExpiredForGoodKeeps(r, n);
    }
  }

  lemma {:induction false} RequeueKeeps(r: Run, n: Name, now: Time)
    requires RunInv(r) && !r.completed
    requires n in r.tasks && r.tasks[n].status.Holds() && r.tasks[n].attempt < MaxAttempts(r.def, n)
    ensures var logged := Log(r, n, TASK_LEASE_EXPIRED(r.tasks[n].attempt));
            && Requeue(logged, n, r.tasks[n], now).Ok? && RunInv(Requeue(logged, n, r.tasks[n], now).value)
            && SparesHeld(r, Requeue(logged, n, r.tasks[n], now).value, n)
  {
    hide RunInv, Core, Settled;
    RowFacts(r, n);
    var k := r.tasks[n].attempt;
    ExpiredPush(r, n, k);
    var logged := Log(r, n, TASK_LEASE_EXPIRED(k));
    RequeuePush(logged, n, k, now);
    var ready := Requeue(logged, n, r.tasks[n], now).value;
    LiveMoveSettles(r, ready, n);
    Intro(ready);
  }

  lemma {:induction false} ExpiredForGoodKeeps(r: Run, n: Name)
    requires RunInv(r) && !r.completed && n in r.tasks && r.tasks[n].status.Holds()
    ensures var logged := Log(r, n, TASK_LEASE_EXPIRED(r.tasks[n].attempt));
            && DeadLetterExpired(logged, n, r.tasks[n]).Ok?
            && var dead := DeadLetterExpired(logged, n, r.tasks[n]).value;
               && AbandonDependents(dead, n).Ok?
               && Settle(AbandonDependents(dead, n).value).Ok?
               && RunInv(Settle(AbandonDependents(dead, n).value).value)
               && SparesHeld(r, Settle(AbandonDependents(dead, n).value).value, n)
  {
    hide RunInv, Core, Settled, Settle, AbandonDependents;
    RowFacts(r, n);
    FailedIsUnburied(r, n);
    var k := r.tasks[n].attempt;
    ExpiredPush(r, n, k);
    var logged := Log(r, n, TASK_LEASE_EXPIRED(k));
    DeathPush(logged, Some(n), n, k, EXPIRED_FOR_GOOD, k);
    var dead := DeadLetterExpired(logged, n, r.tasks[n]).value;
    DeathSettles(r, dead, n);
  }

  /** A held task of a closed run dies quietly; the run must have been cancelled. */
  lemma {:induction false} ReleaseKeeps(r: Run, n: Name)
    requires RunInv(r) && r.status.Terminal() && n in r.tasks
    ensures RunInv(ReleaseAbandoned(r, n)) && SparesHeld(r, ReleaseAbandoned(r, n), n)
  {
    hide Mirror, Recorded, Sound, Legal, Fold;
    if r.tasks[n].status.Holds() {
      var r' := ReleaseAbandoned(r, n);
      ReleaseRows(r, r', n);
      SameJournal(r, r');
      SameRecorded(r, r');
    }
  }

  lemma SameJournal(r: Run, r': Run)
    requires JournalOk(r) && r'.def == r.def && r'.status == r.status
    requires r'.journal == r.journal && r'.eventSeq == r.eventSeq
    ensures JournalOk(r')
  {
    hide Legal, Fold;
  }

  /** Once nothing is PENDING, the barrier alone keeps everything below a dead task dead. */
  lemma BarrierClosesDead(r: Run)
    requires Barrier(r) && forall n :: n in r.tasks ==> !r.tasks[n].status.TaskPending?
    ensures DeadClosed(r)
  {
    forall x, m | x in r.tasks && m in Deps(r.def, x) && m in r.tasks && r.tasks[m].status.TaskDead?
      ensures r.tasks[x].status.TaskDead?
    {
      assert BarrierAt(r, x);
    }
  }

  lemma {:induction false} ReleaseRows(r: Run, r': Run, n: Name)
    requires RowsOk(r) && Barrier(r) && Settled(r) && r.status.RunCancelled?
    requires n in r.tasks && r.tasks[n].status.Holds() && r' == ReleaseAbandoned(r, n)
    ensures RowsOk(r') && Barrier(r') && Settled(r')
  {
    hide DeadClosed, RowsOk, Barrier;
    ReleaseColumns(r, r', n);
    BarrierClosesDead(r');
    assert r'.tasks[n].status in {TaskDead, TaskLeased, TaskRunning};
  }

  lemma ReleaseColumns(r: Run, r': Run, n: Name)
    requires RowsOk(r) && Barrier(r) && n in r.tasks && r.tasks[n].status.Holds() && r' == ReleaseAbandoned(r, n)
    ensures RowsOk(r') && Barrier(r')
  {
    forall x | x in r'.tasks ensures BarrierAt(r', x) { assert BarrierAt(r, x); }
    forall a | a in r'.attempts ensures AttemptOk(r', a.0, a.1) { assert AttemptOk(r, a.0, a.1); }
  }

  // ---------------------------------------------------------------- cancellation

  lemma {:induction false} CancelKeeps(r: Run, reason: string, now: Time)
    requires RunInv(r)
    ensures Cancel(r, reason, now).Ok? <==> !r.completed
    ensures Cancel(r, reason, now).Ok? ==> RunInv(Cancel(r, reason, now).value)
  {
    hide Mirror, Recorded, RowsOk, Barrier, Settled, Sound, Legal, Fold;
    NotCreated(r);
    if !r.completed {
      var r' := Cancel(r, reason, now).value;
      CancelRows(r, r', now);
      CancelJournal(r, r', reason);
      MirrorIsRecorded(r);
      SameRecorded(r, r');
    }
  }

  lemma NotCreated(r: Run)
    requires Settled(r)
    ensures !r.status.RunCreated?
  {
  }

  lemma {:induction false} CancelJournal(r: Run, r': Run, reason: string)
    requires JournalOk(r) && r.status.Open() && r'.def == r.def && r'.status == RunCancelled
    requires r'.eventSeq == r.eventSeq + 1 && r'.journal == r.journal + [NextEvent(r, "", RUN_CANCELLED(reason))]
    ensures JournalOk(r') && Fold(r'.journal).value.tasks == Fold(r.journal).value.tasks
  {
    EventsCounted(r.journal);
    LegalSnoc(r.def, r.journal, NextEvent(r, "", RUN_CANCELLED(reason)));
  }

  predicate Stopped(r: Run, r': Run, now: Time) {
    && r'.def == r.def && r'.attempts == r.attempts && r'.tasks.Keys == r.tasks.Keys
    && forall n :: n in r.tasks ==> r'.tasks[n] == CancelRow(r.tasks[n], now)
  }

  lemma {:induction false} CancelRows(r: Run, r': Run, now: Time)
    requires RowsOk(r) && Barrier(r) && Settled(r) && r.status.Open()
    requires r'.status == RunCancelled && Stopped(r, r', now)
    ensures RowsOk(r') && Barrier(r') && Settled(r')
  {
    hide RowsOk, Barrier, DeadClosed, NoMissedUnlock, AllTasks, SomeTask, NoneFailed;
    CancelColumns(r, r', now);
    CancelBarrier(r, r', now);
    CancelStatuses(r, r', now);
    BarrierClosesDead(r');
  }

  lemma CancelStatuses(r: Run, r': Run, now: Time)
    requires NoneFailed(r) && Unfinished(r) && Stopped(r, r', now)
    ensures NoneFailed(r') && forall n :: n in r'.tasks ==> !r'.tasks[n].status.TaskPending?
    ensures AllTasks(r', {TaskSucceeded, TaskDead, TaskLeased, TaskRunning})
    ensures SomeTask(r', {TaskDead, TaskLeased, TaskRunning})
  {
    var n :| n in r.tasks && !r.tasks[n].status.Terminal();
    assert r'.tasks[n].status in {TaskDead, TaskLeased, TaskRunning};
  }

  lemma CancelColumns(r: Run, r': Run, now: Time)
    requires RowsOk(r) && Stopped(r, r', now)
    ensures RowsOk(r')
  {
    forall n | n in r'.tasks ensures RowOk(r'.tasks[n], MaxAttempts(r'.def, n)) {
      assert RowOk(r.tasks[n], MaxAttempts(r.def, n));
    }
    forall a | a in r'.attempts ensures AttemptOk(r', a.0, a.1) { assert AttemptOk(r, a.0, a.1); }
  }

  lemma CancelBarrier(r: Run, r': Run, now: Time)
    requires Barrier(r) && Stopped(r, r', now)
    ensures Barrier(r')
  {
    forall x | x in r'.tasks ensures BarrierAt(r', x) { assert BarrierAt(r, x); }
  }

  // ---------------------------------------------------------------- creation

  /** Names of the first `i` steps. */
  function NamesUpTo(d: Definition, i: int): set<Name>
    requires 0 <= i <= |d.steps|
  {
    set j | 0 <= j < i :: d.steps[j].name
  }

  /** The reduced tasks of a half-created run: the announced ones, ready and unattempted. */
  ghost predicate Announced(r: Run, s: RunState) {
    && (forall n :: n in s.tasks <==> n in r.tasks && r.tasks[n].status.TaskReady?)
    && (forall n :: n in s.tasks ==> s.tasks[n] == NewTask(n).(status := TaskReady))
  }

  /** Half-created: the first `i` task rows exist, and the ready ones are announced. */
  ghost predicate Building(r: Run, d: Definition, i: int, now: Time) {
    && 0 <= i <= |d.steps|
    && r == Run(d, RunCreated, r.eventSeq, false, r.tasks, {}, map[], map[], r.journal)
    && r.tasks.Keys == NamesUpTo(d, i)
    && (forall j :: 0 <= j < i ==> r.tasks[d.steps[j].name] == InitialRow(d, d.steps[j], now))
    && JournalOk(r) && |r.journal| > 0
    && Announced(r, Fold(r.journal).value)
  }

  lemma {:induction false} InsertOne(r: Run, d: Definition, i: int, now: Time) returns (next: Run)
    requires Building(r, d, i, now) && i < |d.steps| && UniqueNames(d.steps)
    ensures Building(next, d, i + 1, now)
    ensures InsertTasks(r, d.steps[i..], now) == InsertTasks(next, d.steps[i + 1..], now)
  {
    hide Legal, Fold, MaxAttempts, UniqueNames, NamesUpTo, Names, Find;
    var step := d.steps[i];
    var inserted := SetRow(r, step.name, InitialRow(d, step, now));
    next := if step.dependsOn == [] then Log(inserted, step.name, TASK_SCHEDULED(0, [])) else inserted;
    assert d.steps[i..][0] == step && d.steps[i..][1..] == d.steps[i + 1..];
    NewNameIsNew(d, i);
    if step.dependsOn == [] { AnnounceRoot(r, step.name); }
  }

  lemma NewNameIsNew(d: Definition, i: int)
    requires 0 <= i < |d.steps| && UniqueNames(d.steps)
    ensures d.steps[i].name !in NamesUpTo(d, i) && NamesUpTo(d, i + 1) == NamesUpTo(d, i) + {d.steps[i].name}
    ensures d.steps[i].name in Names(d) && Deps(d, d.steps[i].name) == d.steps[i].dependsOn
    ensures forall j :: 0 <= j < i ==> d.steps[j].name in NamesUpTo(d, i)
  {
    FindAt(d.steps, i);
  }

  lemma {:induction false} AnnounceRoot(r: Run, n: Name)
    requires JournalOk(r) && |r.journal| > 0 && r.status.RunCreated? && n in Names(r.def)
    requires Deps(r.def, n) == [] && n !in Fold(r.journal).value.tasks
    ensures var e := NextEvent(r, n, TASK_SCHEDULED(0, []));
            && Legal(r.def, r.journal + [e]) && Fold(r.journal + [e]).Ok?
            && Fold(r.journal + [e]).value.status == r.status
            && Fold(r.journal + [e]).value.tasks == Fold(r.journal).value.tasks[n := NewTask(n).(status := TaskReady)]
  {
    TaskEventOk(r, n, TASK_SCHEDULED(0, []));
    LegalSnoc(r.def, r.journal, NextEvent(r, n, TASK_SCHEDULED(0, [])));
  }

  lemma {:induction false} InsertAll(r: Run, d: Definition, i: int, now: Time)
    requires Building(r, d, i, now) && UniqueNames(d.steps)
    ensures Building(InsertTasks(r, d.steps[i..], now), d, |d.steps|, now)
    decreases |d.steps| - i
  {
    hide Building;
    if i < |d.steps| {
      var next := InsertOne(r, d, i, now);
      InsertAll(next, d, i + 1, now);
    } else {
      BuildingBounds(r, d, i, now);
    }
  }

  lemma BuildingBounds(r: Run, d: Definition, i: int, now: Time)
    requires Building(r, d, i, now)
    ensures 0 <= i <= |d.steps|
  {
  }

  /** The rows of a newly created run: roots are ready, everything else waits for its dependencies. */
  predicate Initial(r: Run, now: Time) {
    && r.tasks.Keys == Names(r.def) && r.attempts == {}
    && forall n :: n in r.tasks ==>
         r.tasks[n] == TaskRow(0, MaxAttempts(r.def, n), if Deps(r.def, n) == [] then TaskReady else TaskPending,
                               None, None, now, "")
  }

  lemma BuiltIsInitial(r: Run, d: Definition, now: Time)
    requires Building(r, d, |d.steps|, now) && UniqueNames(d.steps)
    ensures Initial(r, now)
  {
    assert NamesUpTo(d, |d.steps|) == Names(d);
    forall n | n in r.tasks
      ensures r.tasks[n] == TaskRow(0, MaxAttempts(d, n), if Deps(d, n) == [] then TaskReady else TaskPending,
                                    None, None, now, "")
    {
      var j :| 0 <= j < |d.steps| && d.steps[j].name == n;
      FindAt(d.steps, j);
    }
  }

  lemma {:induction false} InitialRows(r: Run, now: Time)
    requires Initial(r, now) && Sound(r.def) && r.status.RunQueued?
    ensures RowsOk(r) && Barrier(r) && Settled(r)
  {
    hide Acyclic, UniqueNames, Find, MaxAttempts, WaitsAt, DeadClosed, RowsOk, Barrier, Resolved;
    forall n | n in r.tasks ensures WaitsAt(r, n) { InitialWaits(r, now, n); }
    InitialColumns(r, now);
    assert r.def.steps[0].name in r.tasks;
  }

  lemma InitialColumns(r: Run, now: Time)
    requires Initial(r, now) && forall n :: n in Names(r.def) ==> MaxAttempts(r.def, n) >= 1
    ensures RowsOk(r) && Barrier(r) && DeadClosed(r)
  {
    hide MaxAttempts, Find;
  }

  lemma InitialWaits(r: Run, now: Time, n: Name)
    requires Initial(r, now) && Resolved(r.def) && n in r.tasks
    ensures WaitsAt(r, n)
  {
    hide MaxAttempts, Find, Resolved;
    if Deps(r.def, n) != [] {
      DepsAreNames(r.def, n, Deps(r.def, n)[0]);
      assert !r.tasks[Deps(r.def, n)[0]].status.TaskSucceeded?;
    }
  }

  lemma {:induction false} QueuedJournal(r: Run)
    requires JournalOk(r) && r.status.RunCreated? && |r.journal| > 0
    ensures var q := Log(r.(status := RunQueued), "", RUN_QUEUED(|r.def.steps|));
            JournalOk(q) && Fold(q.journal).value.tasks == Fold(r.journal).value.tasks
  {
    EventsCounted(r.journal);
    LegalSnoc(r.def, r.journal, NextEvent(r, "", RUN_QUEUED(|r.def.steps|)));
  }

  lemma {:induction false} CreatedJournal(d: Definition, p: Payload)
    requires p.RUN_CREATED? && p.hash == d.hash
    ensures forall now :: Building(Log(NewRun(d), "", p), d, 0, now)
  {
    var e := NextEvent(NewRun(d), "", p);
    LegalSnoc(d, [], e);
    assert [] + [e] == [e];
    assert NamesUpTo(d, 0) == {};
  }

  /** Every run starts out satisfying the invariant. */
  lemma {:induction false} CreateKeeps(d: Definition, hash: string, scenario: string, seed: int, now: Time)
    requires Sound(d)
    ensures CreateRun(d, hash, scenario, seed, now).Ok? <==> d.hash == hash
    ensures d.hash == hash ==> RunInv(CreateRun(d, hash, scenario, seed, now).value)
    ensures d.hash == hash ==> Initial(CreateRun(d, hash, scenario, seed, now).value, now)
  {
    hide Building, Initial, RunInv, InsertTasks;
    if d.hash == hash {
      var p := RUN_CREATED(d.name, d.version, d.hash, scenario, seed);
      CreatedJournal(d, p);
      assert d.steps[0..] == d.steps;
      InsertAll(Log(NewRun(d), "", p), d, 0, now);
      BuiltIsInvariant(InsertTasks(Log(NewRun(d), "", p), d.steps, now), d, now);
    }
  }

  lemma {:induction false} BuiltIsInvariant(r: Run, d: Definition, now: Time)
    requires Sound(d) && Building(r, d, |d.steps|, now)
    ensures var q := Log(r.(status := RunQueued), "", RUN_QUEUED(|d.steps|));
            RunInv(q) && Initial(q, now)
  {
    hide RowsOk, Barrier, Settled, Acyclic, Resolved, Legal, Fold, Find, UniqueNames;
    var q := Log(r.(status := RunQueued), "", RUN_QUEUED(|d.steps|));
    BuiltIsInitial(r, d, now);
    assert Initial(q, now);
    InitialRows(q, now);
    QueuedJournal(r);
    NewMirror(q, Fold(q.journal).value, now);
  }

  lemma NewMirror(r: Run, s: RunState, now: Time)
    requires Initial(r, now) && Announced(r, s) && r.artifacts == map[] && r.deadLetters == map[]
    ensures s.tasks.Keys <= r.tasks.Keys
    ensures forall n :: n in r.tasks ==> Agrees(r, n, n in s.tasks, TaskOf(s, n), false)
  {
    LastByNameEmpty();
  }
}

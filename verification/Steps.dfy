/** Single-task transactions keep the run invariant: claim, start, retry, requeue, promote, notes. */
module Steps {
  import opened Common
  import opened Statuses
  import opened Events
  import opened Workflow
  import opened Replay
  import opened History
  import opened Tables
  import opened Invariant

  /** Between creation and the verdict there is a journal to append to. */
  lemma {:induction false} OpenHasHistory(r: Run)
    requires JournalOk(r) && !r.status.RunCreated?
    ensures |r.journal| > 0
  {
  }

  /** The bookkeeping part of legality, so that callers only argue about the task. */
  lemma {:induction false} TaskEventOk(r: Run, n: Name, p: Payload)
    requires JournalOk(r) && !r.status.Terminal() && |r.journal| > 0
    requires n in Names(r.def) && p.AboutTask()
    requires var s := Fold(r.journal).value;
             if n in s.tasks then KnownTaskOk(r.def, s.tasks[n], p) else NewTaskOk(r.def, s, n, p)
    ensures StepOk(r.def, Fold(r.journal).value, NextEvent(r, n, p))
  {
    EventsCounted(r.journal);
  }

  /** The reduced state of a task, as the tables know it. */
  lemma {:induction false} Reduced(r: Run, mid: Option<Name>, n: Name) returns (t: TaskState)
    requires Core(r, mid) && n in r.tasks && !r.tasks[n].status.TaskPending?
    ensures n in Fold(r.journal).value.tasks && t == Fold(r.journal).value.tasks[n]
    ensures Agrees(r, n, true, t, mid == Some(n)) && Conserved(r.def, n, t) && n in Names(r.def)
    ensures r.deadLetters.Keys <= r.tasks.Keys
  {
    AttemptConservation(r.def, r.journal, n);
    t := TaskOf(Fold(r.journal).value, n);
  }

  predicate Live(status: TaskStatus) {
    status.TaskReady? || status.TaskLeased? || status.TaskRunning? || status.TaskRetrying?
  }

  /** Attempt rows stay right when the counter does not go back, nor the task back to LEASED. */
  lemma AttemptsSurvive(r: Run, side: Run, n: Name, row: TaskRow, p: Payload)
    requires RowsOk(r) && n in r.tasks && side.tasks == r.tasks && side.attempts == r.attempts
    requires row.attempt > r.tasks[n].attempt ||
             (row.attempt == r.tasks[n].attempt && (row.status.TaskLeased? ==> r.tasks[n].status.TaskLeased?))
    ensures forall a :: a in side.attempts ==> AttemptOk(Moved(side, n, row, p), a.0, a.1)
  {
    forall a | a in side.attempts ensures AttemptOk(Moved(side, n, row, p), a.0, a.1) {
      assert AttemptOk(r, a.0, a.1);
    }
  }

  /** Moving a task the journal knows, to a state that is neither success nor death. */
  lemma {:induction false} LivePush(r: Run, mid: Option<Name>, n: Name, row: TaskRow, p: Payload, mid': Option<Name>)
    requires Core(r, mid) && mid in {None, Some(n)} && mid' in {None, Some(n)}
    requires n in r.tasks && !r.status.Terminal() && |r.journal| > 0
    requires p.AboutTask() && !p.TASK_SUCCEEDED? && !p.TASK_DEAD_LETTERED?
    requires Live(row.status) || row.status.TaskFailed?
    requires Live(r.tasks[n].status) || r.tasks[n].status.TaskFailed?
    requires RowOk(row, MaxAttempts(r.def, n))
    requires row.attempt > r.tasks[n].attempt ||
             (row.attempt == r.tasks[n].attempt && (row.status.TaskLeased? ==> r.tasks[n].status.TaskLeased?))
    requires forall t :: Agrees(r, n, true, t, mid == Some(n)) && Conserved(r.def, n, t) ==>
               && KnownTaskOk(r.def, t, p)
               && ApplyTask(t, p).status == row.status && ApplyTask(t, p).attempts == row.attempt
               && (row.status.Holds() ==> (Calm(ApplyTask(t, p)) <==> mid'.None?))
    ensures Core(Moved(r, n, row, p), mid')
  {
    hide Barrier, Mirror, Legal, Fold, Sound, StepOk;
    var t := Reduced(r, mid, n);
    TaskEventOk(r, n, p);
    AttemptsSurvive(r, r, n, row, p);
    Push(r, mid, r, n, row, p, mid');
  }

  /** What a transaction may assume of the row it selected. */
  lemma {:induction false} RowFacts(r: Run, n: Name)
    requires RunInv(r) && n in r.tasks
    ensures RowOk(r.tasks[n], MaxAttempts(r.def, n)) && n in Names(r.def)
    ensures !r.tasks[n].status.TaskFailed? && !r.status.RunCreated? && |r.journal| > 0
    ensures r.completed <==> r.status.Terminal()
    ensures !r.completed ==> r.status.Open() && Core(r, None)
    ensures r.completed ==> r.tasks[n].status.Terminal() || r.tasks[n].status.Holds()
  {
    OpenHasHistory(r);
  }

  lemma Intro(r: Run)
    requires Core(r, None) && Settled(r)
    ensures RunInv(r)
  {
  }

  /** Settledness survives a live task staying live in an open run. */
  lemma LiveMoveSettles(r: Run, r': Run, n: Name)
    requires RunInv(r) && r.status.Open() && r'.status.Open()
    requires n in r.tasks && n in r'.tasks && r'.def == r.def && r'.tasks == r.tasks[n := r'.tasks[n]]
    requires Live(r.tasks[n].status) && Live(r'.tasks[n].status)
    ensures Settled(r')
  {
    hide Base, Mirror;
    forall x | x in r'.tasks ensures WaitsAt(r', x) {
      assert WaitsAt(r, x);
    }
  }

  // ---------------------------------------------------------------- the transactions

  lemma {:induction false} ClaimKeeps(r: Run, n: Name, w: WorkerId, until: Time)
    requires RunInv(r) && n in r.tasks && r.tasks[n].status.TaskReady?
    ensures Claim(r, n, w, until).Ok? && RunInv(Claim(r, n, w, until).value)
  {
    hide RunInv, Core, Settled;
    RowFacts(r, n);
    FindSound(r.def.steps, n);
    var row := r.tasks[n];
    var leased := row.(status := TaskLeased, worker := Some(w), lease := Some(until), attempt := row.attempt + 1);
    LivePush(r, None, n, leased, TASK_LEASED(leased.attempt), None);
    LiveMoveSettles(r, Moved(r, n, leased, TASK_LEASED(leased.attempt)), n);
    Intro(Moved(r, n, leased, TASK_LEASED(leased.attempt)));
  }

  lemma {:induction false} PromoteKeeps(r: Run, n: Name)
    requires RunInv(r) && n in r.tasks && r.tasks[n].status.TaskRetrying?
    ensures Promote(r, n).Ok? && RunInv(Promote(r, n).value)
  {
    hide RunInv, Core, Settled;
    RowFacts(r, n);
    var ready, p := r.tasks[n].(status := TaskReady), TASK_SCHEDULED(r.tasks[n].attempt, []);
    LivePush(r, None, n, ready, p, None);
    LiveMoveSettles(r, Moved(r, n, ready, p), n);
    Intro(Moved(r, n, ready, p));
  }

  /** The primary key on task_attempts never fires: ErrConcurrentAttempt is unreachable. */
  lemma {:induction false} StartKeeps(r: Run, n: Name, w: WorkerId, k: int, handler: string)
    requires RunInv(r)
    ensures var out := Start(r, n, w, k, handler);
            && out != Err(ConcurrentAttempt)
            && (out.Ok? <==> HeldBy(r, n, {TaskLeased}, w, k) && !r.completed)
            && (out.Ok? ==> RunInv(out.value))
  {
    hide Core, Settled, Mirror, Barrier, JournalOk;
    if HeldBy(r, n, {TaskLeased}, w, k) {
      assert (n, k) in r.attempts ==> AttemptOk(r, n, k);
      if !r.completed { StartKeepsHeld(r, n, k, handler); }
    }
  }

  lemma {:induction false} StartKeepsHeld(r: Run, n: Name, k: int, handler: string)
    requires RunInv(r) && !r.completed
    requires n in r.tasks && r.tasks[n].status.TaskLeased? && r.tasks[n].attempt == k
    ensures var logged := Moved(r.(attempts := r.attempts + {(n, k)}), n, r.tasks[n].(status := TaskRunning),
                                TASK_STARTED(k, handler));
            MarkRunStarted(logged).Ok? && RunInv(MarkRunStarted(logged).value)
  {
    hide RunInv, Core, Settled;
    RowFacts(r, n);
    StartPush(r, n, k, handler);
    var logged := Moved(r.(attempts := r.attempts + {(n, k)}), n, r.tasks[n].(status := TaskRunning),
                        TASK_STARTED(k, handler));
    if r.status.RunQueued? { RunStartedPush(logged, n); }
    LiveMoveSettles(r, MarkRunStarted(logged).value, n);
    Intro(MarkRunStarted(logged).value);
  }

  lemma {:induction false} StartPush(r: Run, n: Name, k: int, handler: string)
    requires Core(r, None) && r.status.Open() && |r.journal| > 0
    requires n in r.tasks && r.tasks[n].status.TaskLeased? && r.tasks[n].attempt == k
    ensures Core(Moved(r.(attempts := r.attempts + {(n, k)}), n, r.tasks[n].(status := TaskRunning),
                       TASK_STARTED(k, handler)), None)
  {
    hide Barrier, Mirror, Legal, Fold, Sound, StepOk, AttemptOk, MaxAttempts;
    var side, row := r.(attempts := r.attempts + {(n, k)}), r.tasks[n].(status := TaskRunning);
    var p := TASK_STARTED(k, handler);
    var t := Reduced(r, None, n);
    TaskEventOk(r, n, p);
    StartedAttemptOk(r, n, k, p);
    Push(r, None, side, n, row, p, None);
  }

  /** Recording the attempt that starts keeps every recorded attempt in order. */
  lemma StartedAttemptOk(r: Run, n: Name, k: int, p: Payload)
    requires n in r.tasks && r.tasks[n].status.TaskLeased? && r.tasks[n].attempt == k >= 1
    requires forall a :: a in r.attempts ==> AttemptOk(r, a.0, a.1)
    ensures var side := r.(attempts := r.attempts + {(n, k)});
            forall a :: a in side.attempts ==>
              AttemptOk(Moved(side, n, r.tasks[n].(status := TaskRunning), p), a.0, a.1)
  {
    var side := r.(attempts := r.attempts + {(n, k)});
    forall a | a in side.attempts
      ensures AttemptOk(Moved(side, n, r.tasks[n].(status := TaskRunning), p), a.0, a.1)
    {
      assert a != (n, k) ==> AttemptOk(r, a.0, a.1);
    }
  }

  lemma {:induction false} RunStartedPush(r: Run, n: Name)
    requires Core(r, None) && r.status.RunQueued? && n in r.tasks && r.tasks[n].status.TaskRunning?
    ensures Core(Log(r.(status := RunRunning), "", RUN_STARTED), None)
  {
    hide Mirror, Barrier, RowsOk;
    var t := Reduced(r, None, n);
    EventsCounted(r.journal);
    PushRun(r, RunRunning, "", RUN_STARTED);
    assert r.(status := RunRunning, completed := false) == r.(status := RunRunning);
  }

  /** An event that only annotates an open run. */
  lemma {:induction false} NotePush(r: Run, n: Name, p: Payload)
    requires RunInv(r) && r.status.Open()
    requires p.FAULT_INJECTED? || p.SIDE_EFFECT_SKIPPED? || p.WORKER_LOST?
    ensures RunInv(Log(r, n, p))
  {
    hide Mirror, RowsOk, Barrier, Settled, Sound, Legal, Fold;
    EventsCounted(r.journal);
    PushRun(r, r.status, n, p);
    assert r.(status := r.status, completed := false) == r;
    SameSettled(r, Log(r, n, p));
    Intro(Log(r, n, p));
  }

  lemma SameSettled(r: Run, r': Run)
    requires Settled(r) && r'.def == r.def && r'.tasks == r.tasks && r'.status == r.status
    ensures Settled(r')
  {
    if r.status.Open() {
      forall x | x in r'.tasks ensures WaitsAt(r', x) { assert WaitsAt(r, x); }
    }
  }

  lemma {:induction false} NoteKeeps(r: Run, n: Name, p: Payload)
    requires RunInv(r) && Note(r, n, p).Ok?
    ensures RunInv(Note(r, n, p).value)
  {
    NotePush(r, n, p);
  }

  lemma {:induction false} AnnounceKeeps(r: Run, w: WorkerId, missed: int, released: int)
    requires RunInv(r)
    ensures RunInv(AnnounceLost(r, w, missed, released))
  {
    if HeldTasks(r, w) != {} && !r.completed {
      NotePush(r, "", WORKER_LOST(missed, released));
    }
  }

  /** Rows that differ at most in the deadline of a lease. */
  predicate SameButDeadlines(r: Run, r': Run) {
    && r' == r.(tasks := r'.tasks) && r'.tasks.Keys == r.tasks.Keys
    && forall n :: n in r.tasks ==>
         && r'.tasks[n] == r.tasks[n].(lease := r'.tasks[n].lease)
         && (r'.tasks[n].lease.Some? <==> r.tasks[n].lease.Some?)
  }

  /** Deadlines are not part of any claim the invariant makes: clocks need not agree. */
  lemma {:induction false} MoveLeasesKeeps(r: Run, names: set<Name>, w: WorkerId, deadline: Time)
    requires RunInv(r)
    ensures SameButDeadlines(r, MoveLeases(r, names, w, deadline))
    ensures RunInv(MoveLeases(r, names, w, deadline))
  {
    hide RunInv;
    forall n | n in r.tasks ensures r.tasks[n].status.Holds() ==> r.tasks[n].lease.Some? {
      RowFacts(r, n);
    }
    DeadlinesDoNotMatter(r, MoveLeases(r, names, w, deadline));
  }

  lemma {:induction false} DeadlinesDoNotMatter(r: Run, r': Run)
    requires RunInv(r) && SameButDeadlines(r, r')
    ensures RunInv(r')
  {
    hide RowsOk, Barrier, Settled, Sound, SameRow, Agrees, Legal, Fold, SameButDeadlines, Recorded;
    DeadlinesInRows(r, r');
    if r.status.RunCancelled? {
      SameRecorded(r, r');
    } else {
      DeadlinesInMirror(r, r', Fold(r.journal).value);
    }
  }

  lemma DeadlinesInMirror(r: Run, r': Run, s: RunState)
    requires forall n :: n in r.tasks ==> Agrees(r, n, n in s.tasks, TaskOf(s, n), false)
    requires r'.tasks.Keys == r.tasks.Keys && r'.artifacts == r.artifacts && r'.deadLetters == r.deadLetters
    requires forall n :: n in r.tasks ==> SameRow(r, r', n)
    ensures forall n :: n in r'.tasks ==> Agrees(r', n, n in s.tasks, TaskOf(s, n), false)
  {
    forall n | n in r'.tasks ensures Agrees(r', n, n in s.tasks, TaskOf(s, n), false) {
      assert Agrees(r, n, n in s.tasks, TaskOf(s, n), false) && SameRow(r, r', n);
    }
  }

  predicate SameRow(r: Run, r': Run, n: Name)
    requires n in r.tasks && n in r'.tasks
  {
    && r'.tasks[n].status == r.tasks[n].status && r'.tasks[n].attempt == r.tasks[n].attempt
    && r'.tasks[n].output == r.tasks[n].output
  }

  lemma DeadlinesInRows(r: Run, r': Run)
    requires RowsOk(r) && Barrier(r) && Settled(r) && SameButDeadlines(r, r')
    ensures RowsOk(r') && Barrier(r') && Settled(r')
    ensures r' == r.(tasks := r'.tasks) && r'.tasks.Keys == r.tasks.Keys
    ensures forall n :: n in r.tasks ==> SameRow(r, r', n)
  {
    hide RowsOk, Barrier, Settled;
    DeadlinesInColumns(r, r');
    SameStatusesSettle(r, r');
  }

  lemma DeadlinesInColumns(r: Run, r': Run)
    requires RowsOk(r) && SameButDeadlines(r, r')
    ensures RowsOk(r')
  {
    forall a | a in r'.attempts ensures AttemptOk(r', a.0, a.1) { assert AttemptOk(r, a.0, a.1); }
  }

  /** The barrier and the verdict are about statuses only. */
  lemma SameStatusesSettle(r: Run, r': Run)
    requires Barrier(r) && Settled(r) && r'.def == r.def && r'.status == r.status && r'.tasks.Keys == r.tasks.Keys
    requires forall n :: n in r.tasks ==> r'.tasks[n].status == r.tasks[n].status
    ensures Barrier(r') && Settled(r')
  {
    hide Deps;
    forall n | n in r'.tasks ensures BarrierAt(r', n) && (WaitsAt(r, n) ==> WaitsAt(r', n)) {
      assert BarrierAt(r, n);
    }
  }
}

/**
 What every row update and every event keeps (Base, Mirror), and what every committed
 transaction restores (Settled). `RunInv` is their conjunction.
 */
module Invariant {
  import opened Common
  import opened Statuses
  import opened Events
  import opened Workflow
  import opened Replay
  import opened History
  import opened Tables

  /** The facts about a definition that the engine relies on; see Validation.Accepted. */
  ghost predicate Sound(d: Definition) {
    && |d.steps| > 0
    && UniqueNames(d.steps)
    && Resolved(d)
    && Acyclic(d)
    && forall n :: n in Names(d) ==> MaxAttempts(d, n) >= 1
  }

  /** Column constraints of one task row. FAILED occurs only inside a transaction. */
  predicate RowOk(row: TaskRow, max: int) {
    && row.maxAttempts == max >= 1
    && 0 <= row.attempt <= max
    && (row.status.Holds() <==> row.lease.Some?)
    && (row.status.Holds() ==> row.worker.Some?)
    && (row.status.Holds() || row.status.TaskFailed? || row.status.TaskSucceeded? ==> row.attempt >= 1)
    && (row.status.TaskReady? ==> row.attempt < max)
    && (row.status.TaskRetrying? ==> 1 <= row.attempt < max)
    && (row.status.TaskPending? ==> row.attempt == 0)
  }

  /** A task that left PENDING without dying had every dependency succeed. */
  predicate BarrierAt(r: Run, n: Name)
    requires n in r.tasks
  {
    r.tasks[n].status.TaskPending? || r.tasks[n].status.TaskDead? ||
    forall m :: m in Deps(r.def, n) ==> m in r.tasks && r.tasks[m].status.TaskSucceeded?
  }

  predicate Barrier(r: Run) {
    forall n :: n in r.tasks ==> BarrierAt(r, n)
  }

  predicate AttemptOk(r: Run, n: Name, k: int) {
    && n in r.tasks
    && 1 <= k <= r.tasks[n].attempt
    && (k == r.tasks[n].attempt ==> !r.tasks[n].status.TaskLeased?)
  }

  ghost predicate JournalOk(r: Run) {
    && r.eventSeq == |r.journal|
    && Legal(r.def, r.journal)
    && Fold(r.journal).Ok?
    && Fold(r.journal).value.status == r.status
  }

  predicate RowsOk(r: Run) {
    && r.tasks.Keys == Names(r.def)
    && (forall n :: n in r.tasks ==> RowOk(r.tasks[n], MaxAttempts(r.def, n)))
    && (forall a :: a in r.attempts ==> AttemptOk(r, a.0, a.1))
  }

  /** Kept by every single row update and event. */
  ghost predicate Base(r: Run) {
    && Sound(r.def)
    && RowsOk(r)
    && Barrier(r)
    && JournalOk(r)
    && (r.completed <==> r.status.Terminal())
  }

  /** One task's rows agree with its reduced state `t`; `known` if the journal mentions it. */
  predicate Agrees(r: Run, n: Name, known: bool, t: TaskState, expiring: bool)
    requires n in r.tasks
  {
    var row := r.tasks[n];
    && (known <==> !row.status.TaskPending?)
    && t.status == row.status
    && t.attempts == row.attempt
    && (row.status.Holds() ==> (Calm(t) <==> !expiring))
    && (row.status.TaskSucceeded? ==> t.output == row.output)
    && ArtifactsOf(r, n) == LastByName(t.artifacts)
    && (n in r.deadLetters <==> row.status.TaskDead?)
    && (n in r.deadLetters ==> r.deadLetters[n] == Max(1, row.attempt))
  }

  /** The whole tables agree with the reduced journal; `mid` is a task between expiry and requeue. */
  ghost predicate Mirror(r: Run, mid: Option<Name>)
    requires Fold(r.journal).Ok?
  {
    var s := Fold(r.journal).value;
    && s.tasks.Keys <= r.tasks.Keys
    && r.deadLetters.Keys <= r.tasks.Keys
    && forall n :: n in r.tasks ==> Agrees(r, n, n in s.tasks, TaskOf(s, n), mid == Some(n))
  }

  ghost predicate Core(r: Run, mid: Option<Name>) {
    Base(r) && Mirror(r, mid)
  }

  // ---------------------------------------------------------------- transaction boundaries

  /** No task waits below a dead one. */
  predicate DeadClosed(r: Run) {
    forall n, m :: n in r.tasks && m in Deps(r.def, n) && m in r.tasks && r.tasks[m].status.TaskDead? ==>
      r.tasks[n].status.TaskDead?
  }

  /** A PENDING task still waits for something. */
  predicate WaitsAt(r: Run, n: Name)
    requires n in r.tasks
  {
    r.tasks[n].status.TaskPending? ==>
      exists m :: m in Deps(r.def, n) && m in r.tasks && !r.tasks[m].status.TaskSucceeded?
  }

  predicate NoMissedUnlock(r: Run) {
    forall n :: n in r.tasks ==> WaitsAt(r, n)
  }

  predicate NoneFailed(r: Run) {
    forall n :: n in r.tasks ==> !r.tasks[n].status.TaskFailed?
  }

  predicate AllTasks(r: Run, ok: set<TaskStatus>) {
    forall n :: n in r.tasks ==> r.tasks[n].status in ok
  }

  predicate SomeTask(r: Run, ok: set<TaskStatus>) {
    exists n :: n in r.tasks && r.tasks[n].status in ok
  }

  predicate Unfinished(r: Run) {
    exists n :: n in r.tasks && !r.tasks[n].status.Terminal()
  }

  /** The run row's status is the right summary of its task rows. */
  predicate Verdict(r: Run) {
    match r.status
    case RunCreated => false
    case RunQueued => Unfinished(r) && NoMissedUnlock(r)
    case RunRunning => Unfinished(r) && NoMissedUnlock(r)
    case RunSucceeded => AllTasks(r, {TaskSucceeded})
    case RunFailed => AllTasks(r, {TaskSucceeded, TaskDead}) && SomeTask(r, {TaskDead})
    case RunCancelled =>
      && AllTasks(r, {TaskSucceeded, TaskDead, TaskLeased, TaskRunning})
      && SomeTask(r, {TaskDead, TaskLeased, TaskRunning})
  }

  predicate Settled(r: Run) {
    NoneFailed(r) && DeadClosed(r) && Verdict(r)
  }

  /** What outlives a cancellation: artifacts and dead letters are still those of the journal. */
  ghost predicate Recorded(r: Run)
    requires Fold(r.journal).Ok?
  {
    var s := Fold(r.journal).value;
    && s.tasks.Keys <= r.tasks.Keys
    && r.deadLetters.Keys <= r.tasks.Keys
    && forall n :: n in r.tasks ==>
         && ArtifactsOf(r, n) == LastByName(TaskOf(s, n).artifacts)
         && (n in r.deadLetters <==> TaskOf(s, n).status.TaskDead?)
         && (n in r.deadLetters ==> r.deadLetters[n] == Max(1, TaskOf(s, n).attempts))
  }

  ghost predicate RunInv(r: Run) {
    Base(r) && Settled(r) && if r.status.RunCancelled? then Recorded(r) else Mirror(r, None)
  }

  lemma MirrorIsRecorded(r: Run)
    requires Fold(r.journal).Ok? && Mirror(r, None)
    ensures Recorded(r)
  {
    var s := Fold(r.journal).value;
    forall n | n in r.tasks
      ensures ArtifactsOf(r, n) == LastByName(TaskOf(s, n).artifacts)
      ensures n in r.deadLetters <==> TaskOf(s, n).status.TaskDead?
      ensures n in r.deadLetters ==> r.deadLetters[n] == Max(1, TaskOf(s, n).attempts)
    {
      assert Agrees(r, n, n in s.tasks, TaskOf(s, n), false);
    }
  }

  /** Recorded looks only at the journal's tasks, the artifacts, the dead letters and the task names. */
  lemma SameRecorded(r: Run, r': Run)
    requires Fold(r.journal).Ok? && Fold(r'.journal).Ok? && Recorded(r)
    requires Fold(r'.journal).value.tasks == Fold(r.journal).value.tasks
    requires r'.tasks.Keys == r.tasks.Keys && r'.artifacts == r.artifacts && r'.deadLetters == r.deadLetters
    ensures Recorded(r')
  {
    hide Fold, LastByName;
    forall n | n in r'.tasks
      ensures ArtifactsOf(r', n) == LastByName(TaskOf(Fold(r'.journal).value, n).artifacts)
      ensures n in r'.deadLetters <==> TaskOf(Fold(r'.journal).value, n).status.TaskDead?
      ensures n in r'.deadLetters ==> r'.deadLetters[n] == Max(1, TaskOf(Fold(r'.journal).value, n).attempts)
    {
      assert n in r.tasks && TaskOf(Fold(r'.journal).value, n) == TaskOf(Fold(r.journal).value, n);
    }
  }

  // ---------------------------------------------------------------- one event at a time

  ghost function NextEvent(r: Run, n: Name, p: Payload): Event {
    Event(r.eventSeq + 1, n, Some(PAYLOAD_VERSION), p)
  }

  /** Update task `n`'s row and log the event that says so. */
  ghost function Moved(r: Run, n: Name, row: TaskRow, p: Payload): Run {
    Log(SetRow(r, n, row), n, p)
  }

  /** `side` is `r` but for attempts, and for `n`'s own dead letter and artifacts. */
  ghost predicate Beside(r: Run, side: Run, n: Name) {
    && side == r.(attempts := side.attempts, deadLetters := side.deadLetters, artifacts := side.artifacts)
    && (forall m :: m != n ==> (m in side.deadLetters <==> m in r.deadLetters))
    && (forall m :: m != n && m in r.deadLetters && m in side.deadLetters ==> side.deadLetters[m] == r.deadLetters[m])
    && (forall m :: m != n ==> ArtifactsOf(side, m) == ArtifactsOf(r, m))
  }

  /** The journal side of a move: legality and the reduced state. */
  lemma {:induction false} MoveJournal(r: Run, n: Name, row: TaskRow, p: Payload)
    requires JournalOk(r) && p.AboutTask()
    requires StepOk(r.def, Fold(r.journal).value, NextEvent(r, n, p))
    ensures JournalOk(Moved(r, n, row, p))
    ensures Fold(Moved(r, n, row, p).journal).value.tasks ==
            Fold(r.journal).value.tasks[n := ApplyTask(TaskOf(Fold(r.journal).value, n), p)]
  {
    LegalSnoc(r.def, r.journal, NextEvent(r, n, p));
  }

  /** The status change of `n` cannot break the dependency barrier. */
  predicate BarrierSafe(r: Run, n: Name, to: TaskStatus)
    requires n in r.tasks
  {
    var from := r.tasks[n].status;
    && (from.TaskSucceeded? ==> to.TaskSucceeded?)
    && (|| to.TaskPending? || to.TaskDead?
        || !(from.TaskPending? || from.TaskDead?)
        || forall m :: m in Deps(r.def, n) ==> m in r.tasks && r.tasks[m].status.TaskSucceeded?)
  }

  lemma MoveBarrier(r: Run, n: Name, row: TaskRow, p: Payload)
    requires Barrier(r) && n in r.tasks && BarrierSafe(r, n, row.status)
    ensures Barrier(Moved(r, n, row, p))
  {
    forall x | x in r.tasks ensures BarrierAt(Moved(r, n, row, p), x) {
      assert BarrierAt(r, x);
    }
  }

  lemma MoveMirror(r: Run, s: RunState, side: Run, s': RunState, n: Name, row: TaskRow, p: Payload,
                   mid: Option<Name>, mid': Option<Name>)
    requires n in r.tasks && Beside(r, side, n) && p.AboutTask()
    requires s'.tasks == s.tasks[n := ApplyTask(TaskOf(s, n), p)]
    requires forall m :: m in r.tasks ==> Agrees(r, m, m in s.tasks, TaskOf(s, m), mid == Some(m))
    requires Agrees(Moved(side, n, row, p), n, true, ApplyTask(TaskOf(s, n), p), mid' == Some(n))
    requires mid in {None, Some(n)} && mid' in {None, Some(n)}
    ensures forall m :: m in r.tasks ==>
              Agrees(Moved(side, n, row, p), m, m in s'.tasks, TaskOf(s', m), mid' == Some(m))
  {
    forall m | m in r.tasks
      ensures Agrees(Moved(side, n, row, p), m, m in s'.tasks, TaskOf(s', m), mid' == Some(m))
    {
      if m != n {
        assert Agrees(r, m, m in s.tasks, TaskOf(s, m), mid == Some(m));
      }
    }
  }

  lemma {:induction false} MoveBase(r: Run, side: Run, n: Name, row: TaskRow, p: Payload)
    requires Base(r) && n in r.tasks && p.AboutTask()
    requires side == r.(attempts := side.attempts, deadLetters := side.deadLetters, artifacts := side.artifacts)
    requires StepOk(r.def, Fold(r.journal).value, NextEvent(r, n, p))
    requires BarrierSafe(r, n, row.status) && RowOk(row, MaxAttempts(r.def, n))
    requires forall a :: a in side.attempts ==> AttemptOk(Moved(side, n, row, p), a.0, a.1)
    ensures Base(Moved(side, n, row, p))
    ensures Fold(Moved(side, n, row, p).journal).value.tasks ==
            Fold(r.journal).value.tasks[n := ApplyTask(TaskOf(Fold(r.journal).value, n), p)]
  {
    MoveJournal(side, n, row, p);
    MoveBarrier(side, n, row, p);
  }

  /**
   The micro-step lemma: a row update together with the event that describes it keeps every
   invariant, provided the event is legal and the new row agrees with what it says.
   */
  lemma {:induction false} Push(r: Run, mid: Option<Name>, side: Run, n: Name, row: TaskRow, p: Payload,
                                mid': Option<Name>)
    requires Core(r, mid) && mid in {None, Some(n)} && mid' in {None, Some(n)}
    requires n in r.tasks && Beside(r, side, n) && p.AboutTask()
    requires StepOk(r.def, Fold(r.journal).value, NextEvent(r, n, p))
    requires BarrierSafe(r, n, row.status) && RowOk(row, MaxAttempts(r.def, n))
    requires forall a :: a in side.attempts ==> AttemptOk(Moved(side, n, row, p), a.0, a.1)
    requires Agrees(Moved(side, n, row, p), n, true, ApplyTask(TaskOf(Fold(r.journal).value, n), p), mid' == Some(n))
    requires side.deadLetters.Keys <= r.tasks.Keys
    ensures Core(Moved(side, n, row, p), mid')
  {
    MoveBase(r, side, n, row, p);
    MoveMirror(r, Fold(r.journal).value, side, Fold(Moved(side, n, row, p).journal).value, n, row, p, mid, mid');
  }

  /** A run-level event that leaves every task row alone. */
  lemma {:induction false} PushRun(r: Run, status: RunStatus, n: Name, p: Payload)
    requires Core(r, None) && !p.AboutTask()
    requires StepOk(r.def, Fold(r.journal).value, NextEvent(r, n, p))
    requires status == ApplyEvent(Fold(r.journal).value, n, p).status
    ensures Core(Log(r.(status := status, completed := status.Terminal()), n, p), None)
  {
    hide StepOk, ApplyEvent, Agrees, RowsOk, Barrier;
    var r' := Log(r.(status := status, completed := status.Terminal()), n, p);
    LegalSnoc(r.def, r.journal, NextEvent(r, n, p));
    var s, s' := Fold(r.journal).value, Fold(r'.journal).value;
    RunEventKeepsTasks(s, n, p);
    SameRows(r, r');
    SameMirror(r, s, r', s');
  }

  lemma RunEventKeepsTasks(s: RunState, n: Name, p: Payload)
    requires !p.AboutTask()
    ensures ApplyEvent(s, n, p).tasks == s.tasks
  {
  }

  /** Facts about rows carry over when rows and definition do. */
  lemma SameRows(r: Run, r': Run)
    requires RowsOk(r) && Barrier(r)
    requires r'.def == r.def && r'.tasks == r.tasks && r'.attempts == r.attempts
    ensures RowsOk(r') && Barrier(r')
  {
    forall n | n in r'.tasks ensures BarrierAt(r', n) { assert BarrierAt(r, n); }
    forall a | a in r'.attempts ensures AttemptOk(r', a.0, a.1) { assert AttemptOk(r, a.0, a.1); }
  }

  lemma SameMirror(r: Run, s: RunState, r': Run, s': RunState)
    requires forall n :: n in r.tasks ==> Agrees(r, n, n in s.tasks, TaskOf(s, n), false)
    requires r'.tasks == r.tasks && r'.artifacts == r.artifacts && r'.deadLetters == r.deadLetters
    requires s'.tasks == s.tasks
    ensures forall n :: n in r'.tasks ==> Agrees(r', n, n in s'.tasks, TaskOf(s', n), false)
  {
    forall n | n in r'.tasks ensures Agrees(r', n, n in s'.tasks, TaskOf(s', n), false) {
      assert Agrees(r, n, n in s.tasks, TaskOf(s, n), false);
    }
  }
}

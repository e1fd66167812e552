/**
 The grammar of run histories: which event may follow a given reduced state. `Legal`
 journals are what the engine is supposed to write; the lemmas here say what every legal
 journal guarantees, without mentioning the engine.
 */
module History {
  import opened Common
  import opened Statuses
  import opened Events
  import opened Workflow
  import opened Replay

  /** Every dependency of `n` is recorded as succeeded. */
  predicate DepsSucceeded(d: Definition, s: RunState, n: Name) {
    forall m :: m in Deps(d, n) ==> m in s.tasks && s.tasks[m].status.TaskSucceeded?
  }

  predicate SomeDepDead(d: Definition, s: RunState, n: Name) {
    exists m :: m in Deps(d, n) && m in s.tasks && s.tasks[m].status.TaskDead?
  }

  /** No lease expiry is waiting to be resolved into a requeue or a dead letter. */
  predicate Calm(t: TaskState) {
    t.leaseExpiries == t.requeues
  }

  /** Rules for a task the journal already mentions. */
  predicate KnownTaskOk(d: Definition, t: TaskState, p: Payload)
    requires p.AboutTask()
  {
    match p
    case TASK_SCHEDULED(k, _) => t.status.TaskRetrying? && k == t.attempts > 0
    case TASK_LEASED(k) => t.status.TaskReady? && k == t.attempts + 1 <= MaxAttempts(d, t.name)
    case TASK_STARTED(k, _) => t.status.TaskLeased? && k == t.attempts && Calm(t)
    case TASK_SUCCEEDED(k, _, _) => t.status.TaskRunning? && k == t.attempts && Calm(t)
    case TASK_FAILED(k, _, retryable) =>
      t.status.Holds() && k == t.attempts && Calm(t) && (retryable ==> k < MaxAttempts(d, t.name))
    case TASK_RETRY_SCHEDULED(k, next) =>
      t.status.TaskFailed? && k == t.attempts && next == k + 1 <= MaxAttempts(d, t.name)
    case TASK_LEASE_EXPIRED(k) => t.status.Holds() && k == t.attempts && Calm(t)
    case TASK_REQUEUED(k, next) =>
      t.status.Holds() && k == t.attempts && !Calm(t) && next == k + 1 <= MaxAttempts(d, t.name)
    case TASK_DEAD_LETTERED(k, _) =>
      k == t.attempts && (t.status.TaskFailed? || (t.status.Holds() && !Calm(t)))
  }

  /** Rules for a task's first event: it became ready, or an upstream task died. */
  predicate NewTaskOk(d: Definition, s: RunState, n: Name, p: Payload) {
    || (p.TASK_SCHEDULED? && p.attempt == 0 && p.dependsOn == Deps(d, n) && DepsSucceeded(d, s, n))
    || (p.TASK_DEAD_LETTERED? && p.attempts == 0 && SomeDepDead(d, s, n))
  }

  predicate AllStatus(d: Definition, s: RunState, ok: set<TaskStatus>) {
    forall n :: n in Names(d) ==> n in s.tasks && s.tasks[n].status in ok
  }

  predicate RunEventOk(d: Definition, s: RunState, p: Payload)
    requires !p.AboutTask()
  {
    match p
    case RUN_CREATED(_, _, hash, _, _) => s.eventCount == 0 && hash == d.hash
    case RUN_QUEUED(count) => s.status.RunCreated? && s.eventCount > 0 && count == |d.steps|
    case RUN_STARTED => s.status.RunQueued? && exists n :: n in s.tasks && s.tasks[n].status.TaskRunning?
    case RUN_SUCCEEDED(count) => s.status.Open() && AllStatus(d, s, {TaskSucceeded}) && count == |d.steps|
    case RUN_FAILED(reason, detail) =>
      && reason == DEAD_LETTERED && detail == ShortfallDetail(LostTasks(s), |d.steps|)
      && s.status.Open()
      && AllStatus(d, s, {TaskSucceeded, TaskDead})
      && exists n :: n in s.tasks && s.tasks[n].status.TaskDead?
    case RUN_CANCELLED(_) => s.status.Open()
    case WORKER_LOST(_, _) => s.status.Open()
    case FAULT_INJECTED(_, _, _) => s.status.Open()
    case SIDE_EFFECT_SKIPPED(_, _, _) => s.status.Open()
    case _ => false
  }

  /** Whether `e` may be the next event of a run of `d` whose history reduces to `s`. */
  predicate StepOk(d: Definition, s: RunState, e: Event) {
    && e.seqNo == s.eventCount + 1
    && e.v == Some(PAYLOAD_VERSION)
    && !s.status.Terminal()
    && if e.payload.AboutTask() then
         && e.task in Names(d)
         && s.eventCount > 0
         && if e.task in s.tasks then KnownTaskOk(d, s.tasks[e.task], e.payload)
            else NewTaskOk(d, s, e.task, e.payload)
       else RunEventOk(d, s, e.payload)
  }

  ghost predicate Legal(d: Definition, journal: seq<Event>) {
    journal == [] ||
    var init := journal[..|journal| - 1];
    && Legal(d, init)
    && Fold(init).Ok?
    && StepOk(d, Fold(init).value, journal[|journal| - 1])
  }

  lemma {:induction false} LegalSnoc(d: Definition, journal: seq<Event>, e: Event)
    requires Legal(d, journal) && Fold(journal).Ok? && StepOk(d, Fold(journal).value, e)
    ensures Legal(d, journal + [e]) && Fold(journal + [e]) == Extend(Fold(journal).value, e)
    ensures Fold(journal + [e]).Ok?
  {
    assert (journal + [e])[..|journal|] == journal;
  }

  /** Replay never refuses a legal history. */
  lemma LegalReduces(d: Definition, journal: seq<Event>)
    requires Legal(d, journal)
    ensures Fold(journal).Ok?
  {
  }

  lemma {:induction false} LegalPrefix(d: Definition, journal: seq<Event>, i: nat)
    requires Legal(d, journal) && i <= |journal|
    ensures Legal(d, journal[..i]) && Fold(journal[..i]).Ok?
    ensures i < |journal| ==> StepOk(d, Fold(journal[..i]).value, journal[i])
  {
    LegalReduces(d, journal);
    if i == |journal| {
      assert journal[..i] == journal;
    } else {
      var init := journal[..|journal| - 1];
      LegalPrefix(d, init, i);
      assert init[..i] == journal[..i];
      if i == |init| { assert journal[..i] == init; }
    }
  }

  // ---------------------------------------------------------------- one task's story

  /** Attempts consumed beyond those already given back by a retry or a requeue. */
  function Outstanding(t: TaskState): int {
    if t.status.Holds() || t.status.TaskSucceeded? || t.status.TaskFailed? then 1
    else if t.status.TaskDead? && t.attempts > 0 then 1
    else 0
  }

  /** What the counters of one task say about each other. */
  predicate Conserved(d: Definition, n: Name, t: TaskState) {
    && t.name == n
    && t.attempts == t.retries + t.requeues + Outstanding(t)
    && 0 <= t.attempts <= Max(MaxAttempts(d, n), 0)
    && 0 <= t.retries && 0 <= t.requeues
    && t.requeues <= t.leaseExpiries <= t.requeues + 1
    && (!Calm(t) ==> t.status.Holds() || t.status.TaskDead?)
    && (t.status.TaskRetrying? ==> t.attempts > 0)
    && !t.status.TaskPending?
    && (t.status.TaskSucceeded? || t.artifacts == [])
  }

  /**
   Attempt conservation: in every reduced state of every legal history, each task's attempts
   are its retries plus its requeues, plus one exactly while the latest attempt has not been
   given back.
   */
  lemma {:induction false} AttemptConservation(d: Definition, journal: seq<Event>, n: Name)
    requires Legal(d, journal)
    ensures Fold(journal).Ok?
    ensures n in Fold(journal).value.tasks ==> Conserved(d, n, Fold(journal).value.tasks[n]) && n in Names(d)
  {
    if journal != [] {
      var init, e := journal[..|journal| - 1], journal[|journal| - 1];
      AttemptConservation(d, init, n);
      if e.payload.AboutTask() && e.task == n {
        TaskStepConserves(d, Fold(init).value, e);
      }
    }
  }

  lemma TaskStepConserves(d: Definition, s: RunState, e: Event)
    requires StepOk(d, s, e) && e.payload.AboutTask()
    requires e.task in s.tasks ==> Conserved(d, e.task, s.tasks[e.task])
    ensures Conserved(d, e.task, ApplyTask(TaskOf(s, e.task), e.payload))
  {
  }

  // ---------------------------------------------------------------- counting events

  /** Kinds of facts the journal can state about a task. */
  datatype Fact =
    | Leased(n: Name, k: int)
    | Started(n: Name, k: int)
    | GivenUp(n: Name, k: int)       // failed, or its lease expired
    | Won(n: Name, k: int)           // succeeded on this attempt
    | FirstScheduled(n: Name)
    | Buried(n: Name)                // dead-lettered
  {
    predicate StatedBy(e: Event) {
      e.task == n &&
      match this
      case Leased(_, k) => e.payload == TASK_LEASED(k)
      case Started(_, k) => e.payload.TASK_STARTED? && e.payload.attempt == k
      case GivenUp(_, k) =>
        || (e.payload.TASK_FAILED? && e.payload.attempt == k)
        || e.payload == TASK_LEASE_EXPIRED(k)
      case Won(_, k) => e.payload.TASK_SUCCEEDED? && e.payload.attempt == k
      case FirstScheduled(_) => e.payload.TASK_SCHEDULED? && e.payload.attempt == 0
      case Buried(_) => e.payload.TASK_DEAD_LETTERED?
    }
  }

  function Count(journal: seq<Event>, f: Fact): nat {
    if journal == [] then 0
    else Count(journal[..|journal| - 1], f) + if f.StatedBy(journal[|journal| - 1]) then 1 else 0
  }

  function Bit(b: bool): nat {
    if b then 1 else 0
  }

  /** How often each fact about attempt `k` of `n` has been stated, as a function of the state. */
  predicate Tallied(journal: seq<Event>, t: TaskState, n: Name, k: int) {
    && Count(journal, Leased(n, k)) == Bit(1 <= k <= t.attempts)
    && Count(journal, Started(n, k)) <= Bit(1 <= k <= t.attempts && !(k == t.attempts && t.status.TaskLeased?))
    && (k == t.attempts && (t.status.TaskRunning? || t.status.TaskSucceeded?) ==> Count(journal, Started(n, k)) == 1)
    && Count(journal, Won(n, k)) == Bit(k == t.attempts && t.status.TaskSucceeded?)
    && Count(journal, GivenUp(n, k)) ==
       Bit(1 <= k <= t.attempts &&
           !(k == t.attempts && (t.status.TaskSucceeded? || (t.status.Holds() && Calm(t)))))
    && Count(journal, FirstScheduled(n)) <= Bit(!t.status.TaskPending?)
    && Count(journal, Buried(n)) == Bit(t.status.TaskDead?)
  }

  /**
   Every attempt number up to the current one was leased exactly once and started at most once, and
   exactly once if it is running or succeeded; every earlier one was resolved exactly once, by
   failure or lease expiry, and never by success; a task succeeds at most once, is scheduled at
   attempt 0 at most once and is dead-lettered exactly when it is dead.
   */
  lemma {:induction false} AttemptsTallied(d: Definition, journal: seq<Event>, n: Name, k: int)
    requires Legal(d, journal)
    ensures Fold(journal).Ok? && Tallied(journal, TaskOf(Fold(journal).value, n), n, k)
  {
    LegalReduces(d, journal);
    if journal != [] {
      AttemptsTallied(d, journal[..|journal| - 1], n, k);
      TallyNext(d, journal, n, k);
    }
  }

  lemma {:induction false} TallyNext(d: Definition, journal: seq<Event>, n: Name, k: int)
    requires Legal(d, journal) && Fold(journal).Ok? && journal != []
    requires Fold(journal[..|journal| - 1]).Ok?
    requires Tallied(journal[..|journal| - 1], TaskOf(Fold(journal[..|journal| - 1]).value, n), n, k)
    ensures Tallied(journal, TaskOf(Fold(journal).value, n), n, k)
  {
    hide Tallied, StepOk, Decodes, Conserved;
    var init, e := journal[..|journal| - 1], journal[|journal| - 1];
    AttemptConservation(d, init, n);
    assert journal == init + [e];
    if e.payload.AboutTask() && e.task == n {
      TaskStepTallies(d, Fold(init).value, init, e, k);
    } else {
      assert TaskOf(Fold(journal).value, n) == TaskOf(Fold(init).value, n);
      OtherStepTallies(init, e, TaskOf(Fold(init).value, n), n, k);
    }
  }

  lemma {:induction false} OtherStepTallies(init: seq<Event>, e: Event, t: TaskState, n: Name, k: int)
    requires Tallied(init, t, n, k) && !(e.payload.AboutTask() && e.task == n)
    ensures Tallied(init + [e], t, n, k)
  {
    hide Count;
    CountsSnoc(init, e, n, k);
  }

  lemma {:induction false} CountsSnoc(init: seq<Event>, e: Event, n: Name, k: int)
    ensures Count(init + [e], Leased(n, k)) == Count(init, Leased(n, k)) + Bit(Leased(n, k).StatedBy(e))
    ensures Count(init + [e], Started(n, k)) == Count(init, Started(n, k)) + Bit(Started(n, k).StatedBy(e))
    ensures Count(init + [e], Won(n, k)) == Count(init, Won(n, k)) + Bit(Won(n, k).StatedBy(e))
    ensures Count(init + [e], GivenUp(n, k)) == Count(init, GivenUp(n, k)) + Bit(GivenUp(n, k).StatedBy(e))
    ensures Count(init + [e], FirstScheduled(n)) == Count(init, FirstScheduled(n)) + Bit(FirstScheduled(n).StatedBy(e))
    ensures Count(init + [e], Buried(n)) == Count(init, Buried(n)) + Bit(Buried(n).StatedBy(e))
  {
    assert (init + [e])[..|init|] == init;
  }

  lemma {:induction false} TaskStepTallies(d: Definition, s: RunState, init: seq<Event>, e: Event, k: int)
    requires StepOk(d, s, e) && e.payload.AboutTask()
    requires Tallied(init, TaskOf(s, e.task), e.task, k)
    requires e.task in s.tasks ==> Conserved(d, e.task, s.tasks[e.task])
    ensures Tallied(init + [e], ApplyTask(TaskOf(s, e.task), e.payload), e.task, k)
  {
    hide Count, DepsSucceeded, SomeDepDead, MaxAttempts, Names;
    CountsSnoc(init, e, e.task, k);
  }

  // ---------------------------------------------------------------- ordering

  lemma OnlySuccessSucceeds(s: RunState, e: Event, n: Name)
    requires !(e.payload.TASK_SUCCEEDED? && e.task == n)
    requires var s' := ApplyEvent(s, e.task, e.payload); n in s'.tasks && s'.tasks[n].status.TaskSucceeded?
    ensures n in s.tasks && s.tasks[n].status.TaskSucceeded?
  {
  }

  /** A task recorded as succeeded has a TASK_SUCCEEDED event. */
  lemma {:induction false} SucceededWasRecorded(d: Definition, journal: seq<Event>, n: Name)
    requires Legal(d, journal) && Fold(journal).Ok?
    requires n in Fold(journal).value.tasks && Fold(journal).value.tasks[n].status.TaskSucceeded?
    ensures exists j :: 0 <= j < |journal| && journal[j].task == n && journal[j].payload.TASK_SUCCEEDED?
  {
    hide StepOk, ApplyEvent, Decodes;
    var init, e := journal[..|journal| - 1], journal[|journal| - 1];
    if !(e.payload.TASK_SUCCEEDED? && e.task == n) {
      OnlySuccessSucceeds(Fold(init).value, e, n);
      SucceededWasRecorded(d, init, n);
      var j :| 0 <= j < |init| && init[j].task == n && init[j].payload.TASK_SUCCEEDED?;
      assert journal[j] == init[j];
    }
  }

  /** Fan-in: a task is first scheduled only after TASK_SUCCEEDED of every dependency. */
  lemma {:induction false} ScheduledAfterDependencies(d: Definition, journal: seq<Event>, i: nat, m: Name)
    requires Legal(d, journal) && i < |journal|
    requires FirstScheduled(journal[i].task).StatedBy(journal[i]) && m in Deps(d, journal[i].task)
    ensures exists j :: 0 <= j < i && journal[j].task == m && journal[j].payload.TASK_SUCCEEDED?
  {
    LegalPrefix(d, journal, i);
    SucceededWasRecorded(d, journal[..i], m);
    var j :| 0 <= j < i && journal[..i][j].task == m && journal[..i][j].payload.TASK_SUCCEEDED?;
    assert journal[j] == journal[..i][j];
  }

  /** The terminal event is unique and last, and later histories never contradict it. */
  lemma {:induction false} TerminalEventIsLast(d: Definition, journal: seq<Event>, i: nat)
    requires Legal(d, journal) && i < |journal|
    ensures journal[i].seqNo == i + 1
    ensures journal[i].payload.Terminal() ==> i == |journal| - 1
  {
    LegalReduces(d, journal);
    ReduceAcceptsIff(journal);
    assert Admissible(journal, i);
  }

  predicate Moves(before: RunState, after: RunState, n: Name) {
    && (before.status == after.status || before.status.CanTransition(after.status))
    && var from, to := TaskOf(before, n).status, TaskOf(after, n).status;
       from == to || from.CanTransition(to)
  }

  /** Every change the journal shows is a row of the run and task state machines. */
  lemma {:induction false} TransitionsAreLegal(d: Definition, journal: seq<Event>, i: nat, n: Name)
    requires Legal(d, journal) && 0 < i < |journal|
    ensures Fold(journal[..i]).Ok? && Fold(journal[..i + 1]).Ok?
    ensures Moves(Fold(journal[..i]).value, Fold(journal[..i + 1]).value, n)
  {
    var before := journal[..i];
    LegalPrefix(d, journal, i);
    EventsCounted(before);
    assert journal[..i + 1] == before + [journal[i]];
    FoldSnoc(before, journal[i]);
    StepMoves(d, Fold(before).value, journal[i], n);
  }

  lemma StepMoves(d: Definition, s: RunState, e: Event, n: Name)
    requires StepOk(d, s, e) && s.eventCount > 0
    ensures Extend(s, e).Ok? && Moves(s, Extend(s, e).value, n)
  {
  }

  lemma {:induction false} EventsCounted(journal: seq<Event>)
    requires Fold(journal).Ok?
    ensures Fold(journal).value.eventCount == |journal|
  {
    ReduceAcceptsIff(journal);
  }
}

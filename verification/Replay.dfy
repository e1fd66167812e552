/**
 The reducer: folding a run's journal into its state (internal/replay/reduce.go, state.go).
 `Fold` is the specification; class Reducer is the loop that mutates a state in place.
 */
module Replay {
  import opened Common
  import opened Statuses
  import opened Events

  datatype TaskState = TaskState(
    name: Name,
    status: TaskStatus,
    attempts: int,
    requeues: int,
    retries: int,
    leaseExpiries: int,
    error: string,
    output: string,
    artifacts: seq<Artifact>,
    handler: string)

  datatype FaultState = FaultState(faultType: string, point: string, task: Name, draw: int)

  datatype SkippedEffect = SkippedEffect(key: string, task: Name, attempt: int, firstAttempt: int)

  datatype RunState = RunState(
    workflow: string,
    version: int,
    definitionHash: string,
    scenario: string,
    seed: int,
    status: RunStatus,
    failureReason: string,
    tasks: map<Name, TaskState>,
    faults: seq<FaultState>,
    skippedEffects: seq<SkippedEffect>,
    workersLost: int,
    eventCount: int,
    lastSeq: int)

  const INITIAL := RunState("", 0, "", "", 0, RunCreated, "", map[], [], [], 0, 0, 0)

  datatype ReduceError =
    | OutOfOrder(expected: int, found: int)
    | UnknownType(seqNo: int)
    | EventAfterTerminal(seqNo: int)
    | BadVersion(seqNo: int)

  /** A task the journal has not mentioned yet. */
  function NewTask(n: Name): TaskState {
    TaskState(n, TaskPending, 0, 0, 0, 0, "", "", [], "")
  }

  function TaskOf(s: RunState, n: Name): TaskState {
    if n in s.tasks then s.tasks[n] else NewTask(n)
  }

  /**
   Whether the payload decodes. RUN_STARTED is never decoded, and worker liveness is
   decoded without comparing the version it carries.
   */
  predicate Decodes(e: Event) {
    if e.payload.RUN_STARTED? then true
    else if e.payload.WorkerLiveness() then e.v.Some?
    else e.v == Some(PAYLOAD_VERSION)
  }

  function Max(a: int, b: int): int {
    if a > b then a else b
  }

  /** What a task event does to the task it names. */
  function ApplyTask(t: TaskState, p: Payload): TaskState
    requires p.AboutTask()
  {
    match p
    case TASK_SCHEDULED(_, _) => t.(status := TaskReady)
    case TASK_LEASED(k) => t.(status := TaskLeased, attempts := Max(k, t.attempts))
    case TASK_STARTED(k, h) => t.(status := TaskRunning, handler := h, attempts := Max(k, t.attempts))
    case TASK_SUCCEEDED(_, output, artifacts) =>
      t.(status := TaskSucceeded, output := output, error := "", artifacts := artifacts)
    case TASK_FAILED(_, error, _) => t.(status := TaskFailed, error := error)
    case TASK_RETRY_SCHEDULED(_, _) => t.(status := TaskRetrying, retries := t.retries + 1)
    case TASK_LEASE_EXPIRED(_) => t.(leaseExpiries := t.leaseExpiries + 1)
    case TASK_REQUEUED(_, _) => t.(status := TaskReady, requeues := t.requeues + 1)
    case TASK_DEAD_LETTERED(_, reason) =>
      t.(status := TaskDead, error := if t.error == "" then reason else t.error)
  }

  /** What one event does to the run state, once it decodes. */
  function ApplyEvent(s: RunState, n: Name, p: Payload): RunState {
    if p.AboutTask() then s.(tasks := s.tasks[n := ApplyTask(TaskOf(s, n), p)])
    else
      match p
      case RUN_CREATED(workflow, version, hash, scenario, seed) =>
        s.(workflow := workflow, version := version, definitionHash := hash,
           scenario := scenario, seed := seed, status := RunCreated)
      case RUN_QUEUED(_) => s.(status := RunQueued)
      case RUN_STARTED => s.(status := RunRunning)
      case RUN_SUCCEEDED(_) => s.(status := RunSucceeded)
      case RUN_FAILED(reason, detail) =>
        s.(status := RunFailed,
           failureReason := if detail == "" then reason else reason + ": " + detail)
      case RUN_CANCELLED(reason) => s.(status := RunCancelled, failureReason := reason)
      case WORKER_LOST(_, _) => s.(workersLost := s.workersLost + 1)
      case FAULT_INJECTED(faultType, point, draw) =>
        s.(faults := s.faults + [FaultState(faultType, point, n, draw)])
      case SIDE_EFFECT_SKIPPED(key, k, first) =>
        s.(skippedEffects := s.skippedEffects + [SkippedEffect(key, n, k, first)])
      case _ => s
  }

  lemma ApplyEventFrame(s: RunState, n: Name, p: Payload)
    requires !s.status.Terminal()
    ensures ApplyEvent(s, n, p).status.Terminal() <==> p.Terminal()
    ensures ApplyEvent(s, n, p).eventCount == s.eventCount && ApplyEvent(s, n, p).lastSeq == s.lastSeq
  {
  }

  /** One turn of the reducer's loop: the refusals in order, then the event. */
  function Extend(s: RunState, e: Event): Result<RunState, ReduceError> {
    if e.seqNo != s.eventCount + 1 then Err(OutOfOrder(s.eventCount + 1, e.seqNo))
    else if !e.payload.Known() then Err(UnknownType(e.seqNo))
    else if s.status.Terminal() then Err(EventAfterTerminal(e.seqNo))
    else if !Decodes(e) then Err(BadVersion(e.seqNo))
    else Ok(ApplyEvent(s, e.task, e.payload).(eventCount := s.eventCount + 1, lastSeq := e.seqNo))
  }

  function Fold(journal: seq<Event>): Result<RunState, ReduceError> {
    if journal == [] then Ok(INITIAL)
    else
      match Fold(journal[..|journal| - 1])
      case Err(e) => Err(e)
      case Ok(s) => Extend(s, journal[|journal| - 1])
  }

  lemma FoldEmpty()
    ensures Fold([]) == Ok(INITIAL)
  {
  }

  lemma FoldSnoc(journal: seq<Event>, e: Event)
    ensures Fold(journal + [e]) ==
            match Fold(journal) case Err(x) => Err(x) case Ok(s) => Extend(s, e)
  {
    assert (journal + [e])[..|journal|] == journal;
  }

  /** A refused prefix stays refused, with the same error, whatever follows it. */
  lemma {:induction false} FoldErrSticks(journal: seq<Event>, i: nat)
    requires i <= |journal| && Fold(journal[..i]).Err?
    ensures Fold(journal) == Fold(journal[..i])
  {
    if i == |journal| {
      assert journal[..i] == journal;
    } else {
      var init := journal[..|journal| - 1];
      assert init[..i] == journal[..i];
      FoldErrSticks(init, i);
    }
  }

  /** Everything about event `i` that the reducer insists on. */
  predicate Admissible(journal: seq<Event>, i: int)
    requires 0 <= i < |journal|
  {
    && journal[i].seqNo == i + 1
    && journal[i].payload.Known()
    && Decodes(journal[i])
    && (journal[i].payload.Terminal() ==> i == |journal| - 1)
  }

  /**
   Reduce accepts a journal exactly when it is numbered 1, 2, 3, ... without a gap, every
   type is known, every payload decodes, and nothing follows a terminal event.
   */
  lemma {:induction false} ReduceAcceptsIff(journal: seq<Event>)
    ensures Fold(journal).Ok? <==> forall i :: 0 <= i < |journal| ==> Admissible(journal, i)
    ensures Fold(journal).Ok? ==>
              var s := Fold(journal).value;
              && s.eventCount == s.lastSeq == |journal|
              && (s.status.Terminal() <==> journal != [] && journal[|journal| - 1].payload.Terminal())
  {
    if journal != [] {
      var init, last := journal[..|journal| - 1], journal[|journal| - 1];
      ReduceAcceptsIff(init);
      if Fold(journal).Ok? {
        forall i | 0 <= i < |journal| ensures Admissible(journal, i) {
          if i < |init| { assert Admissible(init, i); }
        }
      }
      if forall i :: 0 <= i < |journal| ==> Admissible(journal, i) {
        forall i | 0 <= i < |init| ensures Admissible(init, i) {
          assert Admissible(journal, i) && init[i] == journal[i];
        }
        assert Admissible(journal, |init|);
        if init != [] { assert Admissible(journal, |init| - 1); }
      }
    }
  }

  /**
   "A payload whose version this build does not know is an error" holds of every type but
   four. A journal that passes the other refusals is accepted exactly when each event
   carries the current version, or is RUN_STARTED, or is worker liveness with any version.
   */
  lemma VersionGate(journal: seq<Event>)
    requires forall i :: 0 <= i < |journal| ==>
               && journal[i].seqNo == i + 1
               && journal[i].payload.Known()
               && (journal[i].payload.Terminal() ==> i == |journal| - 1)
    ensures Fold(journal).Ok? <==>
            forall i :: 0 <= i < |journal| ==>
              || journal[i].v == Some(PAYLOAD_VERSION)
              || journal[i].payload.RUN_STARTED?
              || (journal[i].payload.WorkerLiveness() && journal[i].v.Some?)
  {
    ReduceAcceptsIff(journal);
    assert forall i :: 0 <= i < |journal| ==> (Admissible(journal, i) <==> Decodes(journal[i]));
  }

  /** The concrete journals the general claim fails on. */
  lemma UnknownVersionsAdmitted()
    ensures Fold([Event(1, "", None, RUN_STARTED)]).Ok?
    ensures Fold([Event(1, "", Some(2), WORKER_HEARTBEAT)]).Ok?
  {
    FoldSnoc([], Event(1, "", None, RUN_STARTED));
    FoldSnoc([], Event(1, "", Some(2), WORKER_HEARTBEAT));
    assert [] + [Event(1, "", None, RUN_STARTED)] == [Event(1, "", None, RUN_STARTED)];
    assert [] + [Event(1, "", Some(2), WORKER_HEARTBEAT)] == [Event(1, "", Some(2), WORKER_HEARTBEAT)];
  }

  // ---------------------------------------------------------------- queries

  function StatusNames(s: RunState, status: TaskStatus): set<Name> {
    set n | n in s.tasks && s.tasks[n].status == status
  }

  /** Tasks that ended without succeeding. */
  function LostTasks(s: RunState): nat {
    |StatusNames(s, TaskDead)|
  }

  // ---------------------------------------------------------------- the mutating reducer

  /** The state Reduce builds, updated in place one event at a time. */
  class Reducer {
    var workflow: string
    var version: int
    var definitionHash: string
    var scenario: string
    var seed: int
    var status: RunStatus
    var failureReason: string
    var tasks: map<Name, TaskState>
    var faults: seq<FaultState>
    var skippedEffects: seq<SkippedEffect>
    var workersLost: int
    var eventCount: int
    var lastSeq: int

    function View(): RunState
      reads this
    {
      RunState(workflow, version, definitionHash, scenario, seed, status, failureReason, tasks,
               faults, skippedEffects, workersLost, eventCount, lastSeq)
    }

    constructor ()
      ensures View() == INITIAL
    {
      workflow, version, definitionHash, scenario, seed := "", 0, "", "", 0;
      status, failureReason, tasks, faults, skippedEffects := RunCreated, "", map[], [], [];
      workersLost, eventCount, lastSeq := 0, 0, 0;
    }

    /** Look a task up, entering it as new if it is not there. */
    method Touch(n: Name) returns (t: TaskState)
      modifies this`tasks
      ensures t == TaskOf(old(View()), n)
      ensures tasks == old(tasks)[n := t]
    {
      if n !in tasks {
        tasks := tasks[n := NewTask(n)];
      }
      t := tasks[n];
    }

    method Apply(e: Event) returns (ok: bool)
      requires e.payload.Known()
      modifies this
      ensures ok == Decodes(e)
      ensures View() == if ok then ApplyEvent(old(View()), e.task, e.payload) else old(View())
    {
      ok := Decodes(e);
      if ok {
        if e.payload.AboutTask() {
          ApplyToTask(e.task, e.payload);
        } else {
          ApplyToRun(e.task, e.payload);
        }
      }
    }

    method ApplyToTask(n: Name, p: Payload)
      requires p.AboutTask()
      modifies this`tasks
      ensures tasks == old(tasks)[n := ApplyTask(TaskOf(old(View()), n), p)]
    {
      var t := Touch(n);
      match p {
        case TASK_SCHEDULED(_, _) => t := t.(status := TaskReady);
        case TASK_LEASED(k) =>
          t := t.(status := TaskLeased);
          if k > t.attempts { t := t.(attempts := k); }
        case TASK_STARTED(k, h) =>
          t := t.(status := TaskRunning, handler := h);
          if k > t.attempts { t := t.(attempts := k); }
        case TASK_SUCCEEDED(_, output, artifacts) =>
          t := t.(status := TaskSucceeded, output := output, error := "", artifacts := artifacts);
        case TASK_FAILED(_, error, _) => t := t.(status := TaskFailed, error := error);
        case TASK_RETRY_SCHEDULED(_, _) => t := t.(status := TaskRetrying, retries := t.retries + 1);
        case TASK_LEASE_EXPIRED(_) => t := t.(leaseExpiries := t.leaseExpiries + 1);
        case TASK_REQUEUED(_, _) => t := t.(status := TaskReady, requeues := t.requeues + 1);
        case TASK_DEAD_LETTERED(_, reason) =>
          t := t.(status := TaskDead);
          if t.error == "" { t := t.(error := reason); }
      }
      tasks := tasks[n := t];
    }

    method ApplyToRun(n: Name, p: Payload)
      requires p.Known() && !p.AboutTask()
      modifies this
      ensures View() == ApplyEvent(old(View()), n, p)
    {
      match p {
        case RUN_CREATED(w, v, h, sc, sd) =>
          workflow, version, definitionHash, scenario, seed := w, v, h, sc, sd;
          status := RunCreated;
        case RUN_QUEUED(_) => status := RunQueued;
        case RUN_STARTED => status := RunRunning;
        case RUN_SUCCEEDED(_) => status := RunSucceeded;
        case RUN_FAILED(reason, detail) =>
          status, failureReason := RunFailed, reason;
          if detail != "" { failureReason := reason + ": " + detail; }
        case RUN_CANCELLED(reason) => status, failureReason := RunCancelled, reason;
        case WORKER_LOST(_, _) => workersLost := workersLost + 1;
        case FAULT_INJECTED(faultType, point, draw) =>
          faults := faults + [FaultState(faultType, point, n, draw)];
        case SIDE_EFFECT_SKIPPED(key, k, first) =>
          skippedEffects := skippedEffects + [SkippedEffect(key, n, k, first)];
        case _ =>
      }
    }
  }

  method Reduce(journal: seq<Event>) returns (r: Result<RunState, ReduceError>)
    ensures r == Fold(journal)
  {
    hide ApplyEvent, Decodes, Fold;
    assert Fold([]) == Ok(INITIAL) by { FoldEmpty(); }
    var state := new Reducer();
    var expectedSeq, terminated := 1, false;
    assert journal[..0] == [];
    for i := 0 to |journal|
      invariant Fold(journal[..i]) == Ok(state.View())
      invariant expectedSeq == state.eventCount + 1
      invariant terminated == state.status.Terminal()
    {
      var e := journal[i];
      FoldSnoc(journal[..i], e);
      assert journal[..i + 1] == journal[..i] + [e];
      var refusal := None;
      if e.seqNo != expectedSeq {
        refusal := Some(OutOfOrder(expectedSeq, e.seqNo));
      } else if !e.payload.Known() {
        refusal := Some(UnknownType(e.seqNo));
      } else if terminated {
        refusal := Some(EventAfterTerminal(e.seqNo));
      } else {
        terminated := e.payload.Terminal();
        ApplyEventFrame(state.View(), e.task, e.payload);
        var ok := state.Apply(e);
        if !ok { refusal := Some(BadVersion(e.seqNo)); }
      }
      if refusal.Some? {
        FoldErrSticks(journal, i + 1);
        return Err(refusal.value);
      }
      expectedSeq := expectedSeq + 1;
      state.eventCount := state.eventCount + 1;
      state.lastSeq := e.seqNo;
    }
    assert journal[..|journal|] == journal;
    r := Ok(state.View());
  }
}

/**
 What replay reads out of a journal, field by field: each part of the reduced state as a
 selection of the journal's own events, without reference to the fold.
 */
module Narration {
  import opened Common
  import opened Statuses
  import opened Text
  import opened Events
  import opened Workflow
  import opened Replay
  import opened History

  /** What `pick` finds in the journal, in order. */
  function Collect<T>(journal: seq<Event>, pick: Event -> Option<T>): seq<T>
    decreases |journal|
  {
    if journal == [] then []
    else (if pick(journal[0]).Some? then [pick(journal[0]).value] else []) + Collect(journal[1..], pick)
  }

  function LastOf<T>(found: seq<T>, otherwise: T): T {
    if found == [] then otherwise else found[|found| - 1]
  }

  lemma {:induction false} CollectConcat<T>(a: seq<Event>, b: seq<Event>, pick: Event -> Option<T>)
    ensures Collect(a + b, pick) == Collect(a, pick) + Collect(b, pick)
    decreases |a|
  {
    if a == [] {
      assert a + b == b;
      assert Collect(a, pick) + Collect(b, pick) == Collect(b, pick);
    } else {
      var head := if pick(a[0]).Some? then [pick(a[0]).value] else [];
      assert (a + b)[0] == a[0] && (a + b)[1..] == a[1..] + b;
      CollectConcat(a[1..], b, pick);
      Associates(head, Collect(a[1..], pick), Collect(b, pick));
    }
  }

  lemma Associates<T>(a: seq<T>, b: seq<T>, c: seq<T>)
    ensures a + (b + c) == a + b + c
  {
  }

  lemma {:induction false} CollectSnoc<T>(journal: seq<Event>, e: Event, pick: Event -> Option<T>, otherwise: T)
    ensures Collect(journal + [e], pick) ==
            Collect(journal, pick) + if pick(e).Some? then [pick(e).value] else []
    ensures LastOf(Collect(journal + [e], pick), otherwise) ==
            if pick(e).Some? then pick(e).value else LastOf(Collect(journal, pick), otherwise)
  {
    CollectConcat(journal, [e], pick);
    assert [e][1..] == [] && Collect([], pick) == [];
    assert Collect([e], pick) == if pick(e).Some? then [pick(e).value] else [];
  }

  // ---------------------------------------------------------------- what is selected

  /** How a run was created. */
  datatype Header = Header(workflow: string, version: int, hash: string, scenario: string, seed: int)

  const NO_HEADER := Header("", 0, "", "", 0)

  function HeaderOf(e: Event): Option<Header> {
    match e.payload
    case RUN_CREATED(workflow, version, hash, scenario, seed) => Some(Header(workflow, version, hash, scenario, seed))
    case _ => None
  }

  function FaultOf(e: Event): Option<FaultState> {
    match e.payload
    case FAULT_INJECTED(faultType, point, draw) => Some(FaultState(faultType, point, e.task, draw))
    case _ => None
  }

  function SkipOf(e: Event): Option<SkippedEffect> {
    match e.payload
    case SIDE_EFFECT_SKIPPED(key, attempt, first) => Some(SkippedEffect(key, e.task, attempt, first))
    case _ => None
  }

  function LossOf(e: Event): Option<Payload> {
    if e.payload.WORKER_LOST? then Some(e.payload) else None
  }

  /** Why a run ended, if not well: the detail follows the reason. */
  function ReasonOf(e: Event): Option<string> {
    match e.payload
    case RUN_FAILED(reason, detail) => Some(if detail == "" then reason else reason + ": " + detail)
    case RUN_CANCELLED(reason) => Some(reason)
    case _ => None
  }

  function HandlerOf(n: Name): Event -> Option<string> {
    (e: Event) => if e.task == n && e.payload.TASK_STARTED? then Some(e.payload.handler) else None
  }

  function FailureOf(n: Name): Event -> Option<string> {
    (e: Event) => if e.task == n && e.payload.TASK_FAILED? then Some(e.payload.error) else None
  }

  function BurialOf(n: Name): Event -> Option<string> {
    (e: Event) => if e.task == n && e.payload.TASK_DEAD_LETTERED? then Some(e.payload.reason) else None
  }

  // ---------------------------------------------------------------- what replay makes of it

  /** The run-level fields of the reduced state are these selections of the journal. */
  ghost predicate ReadsRun(s: RunState, journal: seq<Event>) {
    && Header(s.workflow, s.version, s.definitionHash, s.scenario, s.seed) ==
       LastOf(Collect(journal, HeaderOf), NO_HEADER)
    && s.faults == Collect(journal, FaultOf)
    && s.skippedEffects == Collect(journal, SkipOf)
    && s.workersLost == |Collect(journal, LossOf)|
    && s.failureReason == LastOf(Collect(journal, ReasonOf), "")
  }

  /**
   Of every journal replay accepts: the header is that of the last RUN_CREATED; faults and skipped
   effects are the events that report them, in order, each with its task; lost workers are
   counted by their events; and the failure reason is that of the event that ended the run.
   */
  lemma {:induction false} ReplayReadsRun(journal: seq<Event>)
    requires Fold(journal).Ok?
    ensures ReadsRun(Fold(journal).value, journal)
  {
    hide Decodes, ApplyEvent, ReadsRun, Collect;
    if journal == [] {
      NothingRead();
    } else {
      var init, e := journal[..|journal| - 1], journal[|journal| - 1];
      ReplayReadsRun(init);
      assert journal == init + [e];
      ReadsNext(Fold(init).value, init, e);
      SameReading(ApplyEvent(Fold(init).value, e.task, e.payload), Fold(journal).value, journal);
    }
  }

  lemma NothingRead()
    ensures ReadsRun(INITIAL, [])
  {
    hide Collect;
    NothingCollected(HeaderOf);
    NothingCollected(FaultOf);
    NothingCollected(SkipOf);
    NothingCollected(LossOf);
    NothingCollected(ReasonOf);
    NothingReadFrom();
  }

  lemma NothingCollected<T>(pick: Event -> Option<T>)
    ensures Collect([], pick) == []
  {
  }

  lemma NothingReadFrom()
    requires Collect([], HeaderOf) == [] && Collect([], FaultOf) == [] && Collect([], SkipOf) == []
    requires Collect([], LossOf) == [] && Collect([], ReasonOf) == []
    ensures ReadsRun(INITIAL, [])
  {
    hide Collect;
  }

  lemma ReadsNext(s: RunState, journal: seq<Event>, e: Event)
    requires ReadsRun(s, journal)
    ensures ReadsRun(ApplyEvent(s, e.task, e.payload), journal + [e])
  {
    hide Collect, ApplyTask, LastOf;
    CollectSnoc(journal, e, HeaderOf, NO_HEADER);
    CollectSnoc(journal, e, FaultOf, FaultState("", "", "", 0));
    CollectSnoc(journal, e, SkipOf, SkippedEffect("", "", 0, 0));
    CollectSnoc(journal, e, LossOf, RUN_STARTED);
    CollectSnoc(journal, e, ReasonOf, "");
  }

  lemma SameReading(s: RunState, s': RunState, journal: seq<Event>)
    requires ReadsRun(s, journal) && s' == s.(eventCount := s'.eventCount, lastSeq := s'.lastSeq)
    ensures ReadsRun(s', journal)
  {
    hide Collect, LastOf;
  }

  /** A task's handler is the one its last start names. */
  lemma {:induction false} ReplayReadsHandler(journal: seq<Event>, n: Name)
    requires Fold(journal).Ok?
    ensures TaskOf(Fold(journal).value, n).handler == LastOf(Collect(journal, HandlerOf(n)), "")
  {
    hide Decodes, Collect, ApplyEvent;
    if journal == [] {
      NothingCollected(HandlerOf(n));
    } else {
      var init, e := journal[..|journal| - 1], journal[|journal| - 1];
      ReplayReadsHandler(init, n);
      assert journal == init + [e];
      CollectSnoc(init, e, HandlerOf(n), "");
      HandlerNext(Fold(init).value, e, n);
    }
  }

  lemma HandlerNext(s: RunState, e: Event, n: Name)
    ensures TaskOf(ApplyEvent(s, e.task, e.payload), n).handler ==
            if HandlerOf(n)(e).Some? then HandlerOf(n)(e).value else TaskOf(s, n).handler
  {
  }

  /** What a task's error says, given how its attempts failed and why it was given up. */
  function ErrorText(status: TaskStatus, failures: seq<string>, burials: seq<string>): string {
    if status.TaskSucceeded? then ""
    else if LastOf(failures, "") == "" && status.TaskDead? then LastOf(burials, "")
    else LastOf(failures, "")
  }

  /**
   In every legal history a task's error is that of its last failure; nothing once it succeeded;
   and, if it died without one, the reason it was dead-lettered.
   */
  lemma {:induction false} ReplayReadsError(d: Definition, journal: seq<Event>, n: Name)
    requires Legal(d, journal)
    ensures Fold(journal).Ok?
    ensures var t := TaskOf(Fold(journal).value, n);
            t.error == ErrorText(t.status, Collect(journal, FailureOf(n)), Collect(journal, BurialOf(n)))
  {
    hide Decodes, Collect, StepOk, ApplyEvent;
    LegalReduces(d, journal);
    if journal == [] {
      NothingCollected(FailureOf(n));
      NothingCollected(BurialOf(n));
    } else {
      var init, e := journal[..|journal| - 1], journal[|journal| - 1];
      ReplayReadsError(d, init, n);
      assert journal == init + [e];
      ErrorNext(d, Fold(init).value, init, e, n);
    }
  }

  lemma ErrorNext(d: Definition, s: RunState, journal: seq<Event>, e: Event, n: Name)
    requires StepOk(d, s, e)
    requires var t := TaskOf(s, n);
             t.error == ErrorText(t.status, Collect(journal, FailureOf(n)), Collect(journal, BurialOf(n)))
    ensures var t := TaskOf(ApplyEvent(s, e.task, e.payload), n);
            t.error == ErrorText(t.status, Collect(journal + [e], FailureOf(n)), Collect(journal + [e], BurialOf(n)))
  {
    hide Collect, LastOf, MaxAttempts, Names, DepsSucceeded, SomeDepDead;
    CollectSnoc(journal, e, FailureOf(n), "");
    CollectSnoc(journal, e, BurialOf(n), "");
  }

  // ---------------------------------------------------------------- legal histories

  /** A history that ends in failure says how many tasks were lost, of how many. */
  lemma {:induction false} FailureCounts(d: Definition, journal: seq<Event>)
    requires Legal(d, journal) && Fold(journal).Ok? && Fold(journal).value.status.RunFailed?
    ensures var s := Fold(journal).value;
            s.failureReason == "tasks dead-lettered: " + Decimal(LostTasks(s)) + " of " + Decimal(|d.steps|)
                               + " tasks did not succeed"
  {
    hide Decodes, LostTasks;
    var init, e := journal[..|journal| - 1], journal[|journal| - 1];
    FailureNext(d, Fold(init).value, e);
    SameLost(ApplyEvent(Fold(init).value, e.task, e.payload), Fold(journal).value);
  }

  lemma FailureNext(d: Definition, s: RunState, e: Event)
    requires StepOk(d, s, e) && ApplyEvent(s, e.task, e.payload).status.RunFailed?
    ensures var s' := ApplyEvent(s, e.task, e.payload);
            s'.failureReason == "tasks dead-lettered: " + Decimal(LostTasks(s')) + " of " + Decimal(|d.steps|)
                                + " tasks did not succeed"
  {
    hide Decimal, LostTasks;
    assert e.payload.RUN_FAILED?;
    var s' := ApplyEvent(s, e.task, e.payload);
    SameLost(s, s');
    var count := Decimal(LostTasks(s')) + " of " + Decimal(|d.steps|) + " tasks did not succeed";
    assert |count| > 0;
    Concatenates(LostTasks(s'), |d.steps|);
  }

  lemma Concatenates(lost: nat, total: nat)
    ensures "tasks dead-lettered" + ": " + (Decimal(lost) + " of " + Decimal(total) + " tasks did not succeed") ==
            "tasks dead-lettered: " + Decimal(lost) + " of " + Decimal(total) + " tasks did not succeed"
  {
    hide Decimal;
    assert "tasks dead-lettered" + ": " == "tasks dead-lettered: ";
    Associates("tasks dead-lettered: ", Decimal(lost) + " of " + Decimal(total), " tasks did not succeed");
    Associates("tasks dead-lettered: ", Decimal(lost) + " of ", Decimal(total));
    Associates("tasks dead-lettered: ", Decimal(lost), " of ");
  }

  lemma SameLost(s: RunState, s': RunState)
    requires s'.tasks == s.tasks
    ensures LostTasks(s') == LostTasks(s)
  {
  }

  /** A legal history begins with the one event that says how its run was created. */
  lemma {:induction false} HeaderIsFirst(d: Definition, journal: seq<Event>)
    requires Legal(d, journal) && journal != []
    ensures journal[0].payload.RUN_CREATED? && journal[0].payload.hash == d.hash
    ensures forall i :: 0 < i < |journal| ==> !journal[i].payload.RUN_CREATED?
    ensures Fold(journal).Ok?
    ensures var s := Fold(journal).value;
            Some(Header(s.workflow, s.version, s.definitionHash, s.scenario, s.seed)) == HeaderOf(journal[0])
  {
    hide Decodes, StepOk, ApplyEvent;
    LegalReduces(d, journal);
    var init, e := journal[..|journal| - 1], journal[|journal| - 1];
    EventsCounted(init);
    if init == [] {
      FirstIsCreation(d, e);
    } else {
      HeaderIsFirst(d, init);
      LaterIsNotCreation(d, Fold(init).value, e);
    }
  }

  lemma FirstIsCreation(d: Definition, e: Event)
    requires StepOk(d, INITIAL, e)
    ensures e.payload.RUN_CREATED? && e.payload.hash == d.hash
    ensures var s := ApplyEvent(INITIAL, e.task, e.payload);
            Some(Header(s.workflow, s.version, s.definitionHash, s.scenario, s.seed)) == HeaderOf(e)
  {
  }

  lemma LaterIsNotCreation(d: Definition, s: RunState, e: Event)
    requires StepOk(d, s, e) && s.eventCount > 0
    ensures !e.payload.RUN_CREATED?
    ensures var s' := ApplyEvent(s, e.task, e.payload);
            && s'.workflow == s.workflow && s'.version == s.version && s'.definitionHash == s.definitionHash
            && s'.scenario == s.scenario && s'.seed == s.seed
  {
  }
}

/** What holds of every run in every database any schedule can reach. */
module Guarantees {
  import opened Common
  import opened Statuses
  import opened Events
  import opened Workflow
  import opened Replay
  import opened History
  import opened Tables
  import opened Invariant
  import opened Outcomes
  import opened Evolution
  import opened System

  function RunAt(schedule: seq<Txn>, id: RunId): Run
    requires id in Exec(EMPTY, schedule).runs
  {
    Exec(EMPTY, schedule).runs[id]
  }

  lemma RunAtInv(schedule: seq<Txn>, id: RunId)
    requires id in Exec(EMPTY, schedule).runs
    ensures RunInv(RunAt(schedule, id))
  {
    hide RunInv, Exec;
    Reachable(schedule);
  }

  // ---------------------------------------------------------------- replay refines the engine

  /** The reduced journal and the task rows tell the same story. */
  predicate SameStory(r: Run, s: RunState) {
    && s.status == r.status
    && s.tasks.Keys <= r.tasks.Keys
    && forall n :: n in r.tasks ==>
         && (n !in s.tasks <==> r.tasks[n].status.TaskPending?)
         && (n in s.tasks ==> s.tasks[n].status == r.tasks[n].status && s.tasks[n].attempts == r.tasks[n].attempt)
         && (r.tasks[n].status.TaskSucceeded? ==> s.tasks[n].output == r.tasks[n].output)
  }

  /**
   Replay of a run that was never cancelled rebuilds its rows: the same run status, the same
   status and attempt for every task, and a task is missing exactly while it is PENDING.
   */
  lemma {:induction false} ReplayRefinesEngine(schedule: seq<Txn>, id: RunId)
    requires id in Exec(EMPTY, schedule).runs
    ensures var r := RunAt(schedule, id);
            && Fold(r.journal).Ok?
            && Fold(r.journal).value.status == r.status
            && (!r.status.RunCancelled? ==> SameStory(r, Fold(r.journal).value))
  {
    hide Exec;
    RunAtInv(schedule, id);
    var r := RunAt(schedule, id);
    if !r.status.RunCancelled? {
      MirrorTellsSameStory(r, Fold(r.journal).value);
    }
  }

  lemma MirrorTellsSameStory(r: Run, s: RunState)
    requires s.status == r.status && s.tasks.Keys <= r.tasks.Keys
    requires forall n :: n in r.tasks ==> Agrees(r, n, n in s.tasks, TaskOf(s, n), false)
    ensures SameStory(r, s)
  {
    forall n | n in r.tasks ensures n !in s.tasks <==> r.tasks[n].status.TaskPending? {
      assert Agrees(r, n, n in s.tasks, TaskOf(s, n), false);
    }
  }

  // ---------------------------------------------------------------- histories

  /** Every prefix of every reachable journal obeys the history grammar. */
  lemma {:induction false} HistoriesAreLegal(schedule: seq<Txn>, id: RunId, i: nat)
    requires id in Exec(EMPTY, schedule).runs && i <= |RunAt(schedule, id).journal|
    ensures Legal(RunAt(schedule, id).def, RunAt(schedule, id).journal[..i])
  {
    hide Exec, Settled, RowsOk, Barrier, Mirror;
    RunAtInv(schedule, id);
    LegalPrefix(RunAt(schedule, id).def, RunAt(schedule, id).journal, i);
  }

  /**
   Attempt conservation and fencing as the journal shows them, after every event: counters add
   up, every attempt is leased once, started at most once and resolved at most once.
   */
  lemma {:induction false} AttemptsAddUp(schedule: seq<Txn>, id: RunId, i: nat, n: Name, k: int)
    requires id in Exec(EMPTY, schedule).runs && i <= |RunAt(schedule, id).journal|
    ensures var r := RunAt(schedule, id);
            && Fold(r.journal[..i]).Ok?
            && Tallied(r.journal[..i], TaskOf(Fold(r.journal[..i]).value, n), n, k)
            && (n in Fold(r.journal[..i]).value.tasks ==> Conserved(r.def, n, Fold(r.journal[..i]).value.tasks[n]))
  {
    hide Exec, Legal, Fold, Tallied, Conserved;
    HistoriesAreLegal(schedule, id, i);
    var r := RunAt(schedule, id);
    AttemptsTallied(r.def, r.journal[..i], n, k);
    AttemptConservation(r.def, r.journal[..i], n);
  }

  /** Fan-in, in every reachable journal: a task is first scheduled after each dependency's success. */
  lemma {:induction false} ScheduledInOrder(schedule: seq<Txn>, id: RunId, i: nat, m: Name)
    requires id in Exec(EMPTY, schedule).runs && i < |RunAt(schedule, id).journal|
    requires var (r, e) := (RunAt(schedule, id), RunAt(schedule, id).journal[i]);
             FirstScheduled(e.task).StatedBy(e) && m in Deps(r.def, e.task)
    ensures var j := RunAt(schedule, id).journal;
            exists k :: 0 <= k < i && j[k].task == m && j[k].payload.TASK_SUCCEEDED?
  {
    hide Exec, Legal;
    var r := RunAt(schedule, id);
    HistoriesAreLegal(schedule, id, |r.journal|);
    assert r.journal[..|r.journal|] == r.journal;
    ScheduledAfterDependencies(r.def, r.journal, i, m);
  }

  /**
   Journal shape: numbered 1..event_seq without a gap, and a terminal event exists exactly when
   the run is closed, in which case it is the last one.
   */
  lemma {:induction false} JournalShape(schedule: seq<Txn>, id: RunId)
    requires id in Exec(EMPTY, schedule).runs
    ensures var r := RunAt(schedule, id);
            && r.eventSeq == |r.journal| > 0
            && (r.completed <==> r.status.Terminal())
            && (forall i :: 0 <= i < |r.journal| ==> r.journal[i].seqNo == i + 1)
            && (forall i :: 0 <= i < |r.journal| ==>
                  (r.journal[i].payload.Terminal() <==> r.completed && i == |r.journal| - 1))
  {
    hide Exec, RowsOk, Barrier, Mirror, Legal;
    RunAtInv(schedule, id);
    var r := RunAt(schedule, id);
    ReduceAcceptsIff(r.journal);
    forall i | 0 <= i < |r.journal|
      ensures r.journal[i].seqNo == i + 1
      ensures r.journal[i].payload.Terminal() <==> r.completed && i == |r.journal| - 1
    {
      assert Admissible(r.journal, i);
    }
  }

  // ---------------------------------------------------------------- dependencies

  /**
   Dependency barrier: a task that is neither PENDING nor DEAD has every dependency SUCCEEDED,
   and everything below a task that has not succeeded is PENDING or DEAD.
   */
  lemma {:induction false} DependencyBarrier(schedule: seq<Txn>, id: RunId, n: Name, x: Name)
    requires id in Exec(EMPTY, schedule).runs
    requires n in RunAt(schedule, id).tasks
    ensures var r := RunAt(schedule, id);
            && (r.tasks[n].status.TaskPending? || r.tasks[n].status.TaskDead? ||
                forall m :: m in Deps(r.def, n) ==> m in r.tasks && r.tasks[m].status.TaskSucceeded?)
            && (!r.tasks[n].status.TaskSucceeded? && Below(r.def, x, n) ==> Waiting(r, x))
  {
    hide Exec, RowOk, Mirror, JournalOk, Settled, Acyclic;
    RunAtInv(schedule, id);
    var r := RunAt(schedule, id);
    assert BarrierAt(r, n);
    if !r.tasks[n].status.TaskSucceeded? && Below(r.def, x, n) {
      var p :| Connects(r.def, p, x, n);
      DepsAreNames(r.def, x, p[1]);
      BelowIsWaiting(r, p);
    }
  }

  // ---------------------------------------------------------------- progress

  datatype Progress = Progress(total: nat, terminal: nat, runnable: nat, waiting: nat, inFlight: nat, blocked: nat) {
    /** Unfinished, and nothing will ever move it. */
    predicate Stalled() {
      terminal < total && runnable == 0 && inFlight == 0 && waiting == 0
    }
  }

  function Finished(r: Run): set<Name> {
    set n | n in r.tasks && r.tasks[n].status.Terminal()
  }

  function Runnable(r: Run, now: Time): set<Name> {
    set n | n in r.tasks && r.tasks[n].status.TaskReady? && r.tasks[n].scheduledAt <= now
  }

  function BackingOff(r: Run, now: Time): set<Name> {
    set n | n in r.tasks && (r.tasks[n].status.TaskRetrying? ||
                             (r.tasks[n].status.TaskReady? && r.tasks[n].scheduledAt > now))
  }

  function InFlight(r: Run): set<Name> {
    set n | n in r.tasks && r.tasks[n].status.Holds()
  }

  function RunProgress(r: Run, now: Time): Progress {
    Progress(|r.tasks|, |Finished(r)|, |Runnable(r, now)|, |BackingOff(r, now)|, |InFlight(r)|,
             |WithStatus(r, TaskPending)|)
  }

  predicate Movable(status: TaskStatus) {
    status.TaskReady? || status.TaskRetrying? || status.Holds()
  }

  /** With nothing movable, each PENDING task waits for another PENDING task. */
  lemma StuckWaitsWithin(r: Run, x: Name)
    requires NoneFailed(r) && DeadClosed(r) && NoMissedUnlock(r)
    requires forall n :: n in r.tasks ==> !Movable(r.tasks[n].status)
    requires x in WithStatus(r, TaskPending)
    ensures WaitsWithin(r.def, x, WithStatus(r, TaskPending))
  {
    hide Deps;
    assert WaitsAt(r, x);
    var m :| m in Deps(r.def, x) && m in r.tasks && !r.tasks[m].status.TaskSucceeded?;
    assert m in WithStatus(r, TaskPending);
  }

  /** In a settled open run, unfinished work always includes a task that can move. */
  lemma {:induction false} UnfinishedMeansMovable(r: Run)
    requires NoneFailed(r) && DeadClosed(r) && NoMissedUnlock(r) && Unfinished(r)
    requires Acyclic(r.def)
    ensures exists n :: n in r.tasks && Movable(r.tasks[n].status)
  {
    hide Acyclic, WaitsWithin, DeadClosed, NoMissedUnlock;
    if forall n :: n in r.tasks ==> !Movable(r.tasks[n].status) {
      var n :| n in r.tasks && !r.tasks[n].status.Terminal();
      assert n in WithStatus(r, TaskPending);
      forall x | x in WithStatus(r, TaskPending) ensures WaitsWithin(r.def, x, WithStatus(r, TaskPending)) {
        StuckWaitsWithin(r, x);
      }
      StuckContradicts(r.def, WithStatus(r, TaskPending));
    }
  }

  lemma {:induction false} StuckContradicts(d: Definition, stuck: set<Name>)
    requires Acyclic(d) && forall x :: x in stuck ==> WaitsWithin(d, x, stuck)
    ensures stuck == {}
  {
    hide WaitsWithin, Acyclic;
    if stuck != {} {
      StuckSetHasCycle(d, stuck);
    }
  }

  /** Any settled run, closed or not, keeps something movable while a task has not ended. */
  lemma SettledMoves(r: Run)
    requires Settled(r) && Acyclic(r.def) && Unfinished(r)
    ensures exists n :: n in r.tasks && Movable(r.tasks[n].status)
  {
    hide Acyclic, NoMissedUnlock, DeadClosed;
    var n :| n in r.tasks && !r.tasks[n].status.Terminal();
    if r.status.RunQueued? || r.status.RunRunning? {
      UnfinishedMeansMovable(r);
    } else {
      assert r.tasks[n].status in {TaskSucceeded, TaskDead, TaskLeased, TaskRunning};
    }
  }

  lemma MovableIsCounted(r: Run, now: Time, n: Name)
    requires n in r.tasks && Movable(r.tasks[n].status)
    ensures !RunProgress(r, now).Stalled()
  {
    assert n in Runnable(r, now) || n in BackingOff(r, now) || n in InFlight(r);
  }

  /** No reachable run is ever stalled, at any reading of any clock. */
  lemma {:induction false} NeverStalled(schedule: seq<Txn>, id: RunId, now: Time)
    requires id in Exec(EMPTY, schedule).runs
    ensures !RunProgress(RunAt(schedule, id), now).Stalled()
    ensures !RunAt(schedule, id).completed ==>
              exists n :: n in RunAt(schedule, id).tasks && Movable(RunAt(schedule, id).tasks[n].status)
  {
    hide Exec, RowOk, Mirror, JournalOk, Barrier, RunProgress;
    RunAtInv(schedule, id);
    var r := RunAt(schedule, id);
    OpenIsUnfinished(r);
    if Unfinished(r) {
      SettledMoves(r);
      var n :| n in r.tasks && Movable(r.tasks[n].status);
      MovableIsCounted(r, now, n);
    } else {
      FinishedIsNotStalled(r, now);
    }
  }

  lemma OpenIsUnfinished(r: Run)
    requires Settled(r) && (r.completed <==> r.status.Terminal())
    ensures r.completed || Unfinished(r)
  {
    assert Verdict(r);
  }

  lemma FinishedIsNotStalled(r: Run, now: Time)
    requires !Unfinished(r)
    ensures !RunProgress(r, now).Stalled()
  {
    assert Finished(r) == r.tasks.Keys;
    assert |r.tasks| == |r.tasks.Keys|;
  }

  /** RunProgress counts every task of a reachable run exactly once. */
  lemma {:induction false} ProgressCountsAll(schedule: seq<Txn>, id: RunId, now: Time)
    requires id in Exec(EMPTY, schedule).runs
    ensures var p := RunProgress(RunAt(schedule, id), now);
            p.total == p.terminal + p.runnable + p.waiting + p.inFlight + p.blocked
  {
    hide Exec, RunInv, RunProgress;
    RunAtInv(schedule, id);
    HasTasks(RunAt(schedule, id));
    CountsAll(RunAt(schedule, id), now);
  }

  /** Every element of `all` is in exactly one of the five sets. */
  ghost predicate Partition(all: set<Name>, a: set<Name>, b: set<Name>, c: set<Name>, d: set<Name>, e: set<Name>) {
    all == a + b + c + d + e && a !! b && (a + b) !! c && (a + b + c) !! d && (a + b + c + d) !! e
  }

  lemma PartitionCounts(all: set<Name>, a: set<Name>, b: set<Name>, c: set<Name>, d: set<Name>, e: set<Name>)
    requires Partition(all, a, b, c, d, e)
    ensures |all| == |a| + |b| + |c| + |d| + |e|
  {
    assert |a + b| == |a| + |b|;
    assert |a + b + c| == |a + b| + |c|;
    assert |a + b + c + d| == |a + b + c| + |d|;
  }

  lemma StatusesPartition(r: Run, now: Time)
    requires NoneFailed(r)
    ensures Partition(r.tasks.Keys, Finished(r), Runnable(r, now), BackingOff(r, now), InFlight(r),
                      WithStatus(r, TaskPending))
  {
    var (a, b, c, d, e) := (Finished(r), Runnable(r, now), BackingOff(r, now), InFlight(r), WithStatus(r, TaskPending));
    forall n ensures n in r.tasks.Keys <==> n in a + b + c + d + e {
      if n in r.tasks { assert !r.tasks[n].status.TaskFailed?; }
    }
  }

  lemma CountsAll(r: Run, now: Time)
    requires NoneFailed(r)
    ensures var p := RunProgress(r, now);
            p.total == p.terminal + p.runnable + p.waiting + p.inFlight + p.blocked
  {
    hide Partition, Finished, Runnable, BackingOff, InFlight, WithStatus;
    StatusesPartition(r, now);
    PartitionCounts(r.tasks.Keys, Finished(r), Runnable(r, now), BackingOff(r, now), InFlight(r),
                    WithStatus(r, TaskPending));
    assert |r.tasks| == |r.tasks.Keys|;
  }

  /** A closed run offers nothing to claims or promotions: its tasks have ended or are still held. */
  lemma {:induction false} ClosedRunsOfferNothing(schedule: seq<Txn>, id: RunId, n: Name, now: Time)
    requires id in Exec(EMPTY, schedule).runs && n in RunAt(schedule, id).tasks
    ensures var r := RunAt(schedule, id);
            r.completed ==>
              && (r.tasks[n].status.Terminal() || r.tasks[n].status.Holds())
              && !Claimable(r, n, now) && !Due(r, n, now)
  {
    hide Exec, RunInv;
    RunAtInv(schedule, id);
    HasTasks(RunAt(schedule, id));
    if RunAt(schedule, id).completed { ClosedStatuses(RunAt(schedule, id), n); }
  }

  lemma ClosedStatuses(r: Run, n: Name)
    requires Settled(r) && r.completed && r.status.Terminal() && n in r.tasks
    ensures r.tasks[n].status.Terminal() || r.tasks[n].status.Holds()
  {
    assert Verdict(r);
  }

  // ---------------------------------------------------------------- verdicts

  /**
   Verdict soundness. A run is SUCCEEDED exactly when every task succeeded; a run never
   cancelled is FAILED exactly when all its tasks ended and one died, and open exactly while a
   task has not ended.
   */
  lemma {:induction false} VerdictsAreSound(schedule: seq<Txn>, id: RunId)
    requires id in Exec(EMPTY, schedule).runs
    ensures var r := RunAt(schedule, id);
            && (r.status.RunSucceeded? <==> AllTasks(r, {TaskSucceeded}))
            && (!r.status.RunCancelled? ==>
                  && (r.status.RunFailed? <==> !Unfinished(r) && SomeTask(r, {TaskDead}))
                  && (!r.completed <==> Unfinished(r)))
  {
    hide Exec, RunInv, Unfinished, AllTasks, SomeTask;
    RunAtInv(schedule, id);
    HasTasks(RunAt(schedule, id));
    VerdictCases(RunAt(schedule, id));
  }

  lemma HasTasks(r: Run)
    requires RunInv(r)
    ensures r.tasks != map[] && Settled(r) && (r.completed <==> r.status.Terminal())
  {
    hide Settled, Mirror, Recorded, Barrier, JournalOk, RowOk, Acyclic, UniqueNames, Resolved;
    assert r.def.steps[0].name in r.tasks;
  }

  /**
   Lost work, counted three ways: replay's lost tasks are the dead letters, and in a run never
   cancelled they are the DEAD rows; each letter carries the attempts the task consumed, at least
   one. The artifact rows are the last upload the journal records.
   */
  lemma {:induction false} NothingUnrecorded(schedule: seq<Txn>, id: RunId, n: Name)
    requires id in Exec(EMPTY, schedule).runs
    ensures var r := RunAt(schedule, id);
            && Fold(r.journal).Ok?
            && r.deadLetters.Keys == StatusNames(Fold(r.journal).value, TaskDead)
            && LostTasks(Fold(r.journal).value) == |r.deadLetters|
            && (!r.status.RunCancelled? ==> r.deadLetters.Keys == WithStatus(r, TaskDead))
            && (n in r.tasks ==> ArtifactsOf(r, n) == LastByName(TaskOf(Fold(r.journal).value, n).artifacts))
            && (n in r.deadLetters ==> r.deadLetters[n] == Max(1, TaskOf(Fold(r.journal).value, n).attempts))
  {
    hide Exec, RunInv, Recorded, Fold, StatusNames, WithStatus, ArtifactsOf, LastByName;
    RunAtInv(schedule, id);
    RunIsRecorded(RunAt(schedule, id));
    RecordedFacts(RunAt(schedule, id), n);
    if !RunAt(schedule, id).status.RunCancelled? {
      ReplayRefinesEngine(schedule, id);
      DeadNamesAgree(RunAt(schedule, id), Fold(RunAt(schedule, id).journal).value);
    }
  }

  lemma RunIsRecorded(r: Run)
    requires RunInv(r)
    ensures Fold(r.journal).Ok? && Recorded(r)
  {
    hide Settled, Mirror, Recorded, Barrier, RowsOk, Sound, Legal, Fold;
    if !r.status.RunCancelled? { MirrorIsRecorded(r); }
  }

  lemma RecordedFacts(r: Run, n: Name)
    requires Fold(r.journal).Ok? && Recorded(r)
    ensures r.deadLetters.Keys == StatusNames(Fold(r.journal).value, TaskDead)
    ensures LostTasks(Fold(r.journal).value) == |r.deadLetters|
    ensures n in r.tasks ==> ArtifactsOf(r, n) == LastByName(TaskOf(Fold(r.journal).value, n).artifacts)
    ensures n in r.deadLetters ==> r.deadLetters[n] == Max(1, TaskOf(Fold(r.journal).value, n).attempts)
  {
    hide Fold, LastByName, ArtifactsOf;
    var s := Fold(r.journal).value;
    assert forall x :: x in r.deadLetters.Keys <==> x in StatusNames(s, TaskDead);
    assert |r.deadLetters| == |r.deadLetters.Keys|;
  }

  lemma DeadNamesAgree(r: Run, s: RunState)
    requires SameStory(r, s)
    ensures StatusNames(s, TaskDead) == WithStatus(r, TaskDead)
  {
    assert forall x :: x in StatusNames(s, TaskDead) <==> x in WithStatus(r, TaskDead);
  }

  lemma VerdictCases(r: Run)
    requires Settled(r) && r.tasks != map[] && (r.completed <==> r.status.Terminal())
    ensures r.status.RunSucceeded? <==> AllTasks(r, {TaskSucceeded})
    ensures !r.status.RunCancelled? ==> (r.status.RunFailed? <==> !Unfinished(r) && SomeTask(r, {TaskDead}))
    ensures !r.status.RunCancelled? ==> (!r.completed <==> Unfinished(r))
  {
    assert AllTasks(r, {TaskSucceeded}) ==>
      !SomeTask(r, {TaskDead}) && !SomeTask(r, {TaskDead, TaskLeased, TaskRunning});
    if AllTasks(r, {TaskSucceeded}) || (!Unfinished(r) && SomeTask(r, {TaskDead})) {
      assert !Unfinished(r);
    }
    var n :| n in r.tasks;
    assert AllTasks(r, {TaskSucceeded}) ==> r.tasks[n].status.TaskSucceeded?;
  }
}

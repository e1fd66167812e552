/** Transactions that end a task: success unlocks dependents, death abandons them, and the run settles. */
module Outcomes {
  import opened Common
  import opened Statuses
  import opened Events
  import opened Workflow
  import opened Replay
  import opened History
  import opened Tables
  import opened Invariant
  import opened Steps

  // ---------------------------------------------------------------- settling

  lemma {:induction false} NamesCount(steps: seq<Step>)
    requires UniqueNames(steps)
    ensures |set i | 0 <= i < |steps| :: steps[i].name| == |steps|
  {
    var names := set i | 0 <= i < |steps| :: steps[i].name;
    if steps != [] {
      var init, last := steps[..|steps| - 1], steps[|steps| - 1];
      var before := set i | 0 <= i < |init| :: init[i].name;
      NamesCount(init);
      assert names == before + {last.name} by {
        forall n | n in names ensures n in before + {last.name} {
          var i :| 0 <= i < |steps| && steps[i].name == n;
          if i < |init| { assert init[i].name == n; }
        }
        forall n | n in before ensures n in names {
          var i :| 0 <= i < |init| && init[i].name == n;
          assert steps[i].name == n;
        }
      }
    }
  }

  /** What the three counts of settleRun decide. */
  lemma CountsDecide(r: Run)
    ensures var s, d := WithStatus(r, TaskSucceeded), WithStatus(r, TaskDead);
            && |s| + |d| <= |r.tasks|
            && (|s| + |d| < |r.tasks| <==> Unfinished(r))
            && (|d| > 0 <==> SomeTask(r, {TaskDead}))
  {
    var s, d := WithStatus(r, TaskSucceeded), WithStatus(r, TaskDead);
    assert |r.tasks| == |r.tasks.Keys|;
    PartsCount(s, d, r.tasks.Keys);
    if Unfinished(r) {
      var n :| n in r.tasks && !r.tasks[n].status.Terminal();
      assert n in r.tasks.Keys - (s + d);
    }
    if r.tasks.Keys - (s + d) != {} {
      var n :| n in r.tasks.Keys - (s + d);
      assert !r.tasks[n].status.Terminal();
    }
    if SomeTask(r, {TaskDead}) {
      var n :| n in r.tasks && r.tasks[n].status in {TaskDead};
      assert n in d;
    }
  }

  lemma PartsCount(a: set<Name>, b: set<Name>, all: set<Name>)
    requires a !! b && a <= all && b <= all
    ensures |a| + |b| <= |all| && (|a| + |b| < |all| <==> all - (a + b) != {})
  {
    var rest := all - (a + b);
    assert |a + b| == |a| + |b|;
    assert all == (a + b) + rest && |all| == |a + b| + |rest|;
  }

  /** Statuses read off the reduced journal are the statuses in the rows. */
  lemma {:induction false} ReducedStatuses(r: Run, mid: Option<Name>, s: RunState)
    requires Core(r, mid) && s == Fold(r.journal).value
    ensures s.tasks.Keys <= r.tasks.Keys == Names(r.def)
    ensures s.status == r.status && s.eventCount == r.eventSeq
    ensures forall n :: n in r.tasks && !r.tasks[n].status.TaskPending? ==>
              n in s.tasks && s.tasks[n].status == r.tasks[n].status
  {
    hide Legal, Fold, Barrier, Sound;
    EventsCounted(r.journal);
    forall n | n in r.tasks && !r.tasks[n].status.TaskPending?
      ensures n in s.tasks && s.tasks[n].status == r.tasks[n].status
    {
      assert Agrees(r, n, n in s.tasks, TaskOf(s, n), mid == Some(n));
    }
  }

  /** The verdict's event is legal: the reduced journal has seen every task end. */
  lemma {:induction false} FailedVerdictOk(r: Run, p: Payload)
    requires Core(r, None) && r.status.Open() && !Unfinished(r) && SomeTask(r, {TaskDead})
    requires p == RUN_FAILED(DEAD_LETTERED, ShortfallDetail(|WithStatus(r, TaskDead)|, |r.tasks|))
    ensures StepOk(r.def, Fold(r.journal).value, NextEvent(r, "", p))
  {
    hide Mirror, Fold, Legal, Barrier, RowsOk, Sound, ShortfallDetail, WithStatus, LostTasks;
    var s := Fold(r.journal).value;
    ReducedStatuses(r, None, s);
    var n :| n in r.tasks && r.tasks[n].status in {TaskDead};
    assert n in s.tasks && s.tasks[n].status.TaskDead?;
    DeadCounted(r, s);
    StepsCounted(r);
  }

  lemma DeadCounted(r: Run, s: RunState)
    requires s.tasks.Keys <= r.tasks.Keys
    requires forall n :: n in r.tasks ==> n in s.tasks && s.tasks[n].status == r.tasks[n].status
    ensures LostTasks(s) == |WithStatus(r, TaskDead)|
  {
    assert StatusNames(s, TaskDead) == WithStatus(r, TaskDead);
  }

  lemma {:induction false} SucceededVerdictOk(r: Run, p: Payload)
    requires Core(r, None) && r.status.Open() && AllTasks(r, {TaskSucceeded}) && p == RUN_SUCCEEDED(|r.tasks|)
    ensures StepOk(r.def, Fold(r.journal).value, NextEvent(r, "", p))
  {
    hide Mirror, Fold, Legal, Barrier, RowsOk, Sound;
    var s := Fold(r.journal).value;
    ReducedStatuses(r, None, s);
    StepsCounted(r);
  }

  lemma StepsCounted(r: Run)
    requires Base(r)
    ensures |r.tasks| == |r.def.steps|
  {
    NamesCount(r.def.steps);
    assert |r.tasks| == |r.tasks.Keys|;
  }

  /** Everything but the verdict itself. */
  predicate Balanced(r: Run) {
    NoneFailed(r) && DeadClosed(r) && NoMissedUnlock(r)
  }

  /** settleRun never meets an illegal transition, and leaves a run whose verdict is right. */
  lemma {:induction false} SettleKeeps(r: Run)
    requires Core(r, None) && r.status.Open() && Balanced(r)
    ensures Settle(r).Ok? && RunInv(Settle(r).value)
  {
    hide Base, Mirror, Balanced, Settled, Unfinished, SomeTask, WithStatus, ShortfallDetail, RunInv;
    CountsDecide(r);
    OpenIsNotCompleted(r);
    if Unfinished(r) {
      UnfinishedSettles(r);
      Intro(r);
    } else {
      var total, succeeded, dead := |r.tasks|, |WithStatus(r, TaskSucceeded)|, |WithStatus(r, TaskDead)|;
      if dead > 0 {
        ClosingKeeps(r, RunFailed, RUN_FAILED(DEAD_LETTERED, ShortfallDetail(dead, total)));
      } else {
        ClosingKeeps(r, RunSucceeded, RUN_SUCCEEDED(succeeded));
      }
    }
  }

  lemma {:induction false} ClosingKeeps(r: Run, verdict: RunStatus, p: Payload)
    requires Core(r, None) && r.status.Open() && Balanced(r) && !Unfinished(r)
    requires || (p == RUN_FAILED(DEAD_LETTERED, ShortfallDetail(|WithStatus(r, TaskDead)|, |r.tasks|)) &&
                 verdict == RunFailed && SomeTask(r, {TaskDead}))
             || (p == RUN_SUCCEEDED(|r.tasks|) && verdict == RunSucceeded && !SomeTask(r, {TaskDead}))
    ensures RunInv(Log(r, "", p).(status := verdict, completed := true))
  {
    hide Base, Mirror, Balanced, Settled, SomeTask, Unfinished, WithStatus, ShortfallDetail, AllTasks;
    if p.RUN_FAILED? {
      FailedVerdictOk(r, p);
    } else {
      NoneDeadMeansAllSucceeded(r);
      SucceededVerdictOk(r, p);
    }
    PushRun(r, verdict, "", p);
    var closed := Log(r.(status := verdict, completed := true), "", p);
    ClosedSettles(r, closed);
    Intro(closed);
  }

  lemma NoneDeadMeansAllSucceeded(r: Run)
    requires !Unfinished(r) && !SomeTask(r, {TaskDead})
    ensures AllTasks(r, {TaskSucceeded})
  {
    forall n | n in r.tasks ensures r.tasks[n].status in {TaskSucceeded} {
      assert r.tasks[n].status !in {TaskDead};
    }
  }

  lemma OpenIsNotCompleted(r: Run)
    requires Base(r) && r.status.Open()
    ensures !r.completed
  {
  }

  lemma UnfinishedSettles(r: Run)
    requires r.status.Open() && Balanced(r) && Unfinished(r)
    ensures Settled(r)
  {
  }

  lemma ClosedSettles(r: Run, r': Run)
    requires Balanced(r) && !Unfinished(r) && r'.def == r.def && r'.tasks == r.tasks
    requires r'.status == if SomeTask(r, {TaskDead}) then RunFailed else RunSucceeded
    ensures Settled(r')
  {
    if SomeTask(r, {TaskDead}) {
      var n :| n in r.tasks && r.tasks[n].status in {TaskDead};
      assert r'.tasks[n].status in {TaskDead};
    }
  }

  // ---------------------------------------------------------------- unlocking dependents

  /** `r'` is `r` with other task rows, dead letters and history. */
  predicate SameRun(r: Run, r': Run) {
    && r'.def == r.def && r'.status == r.status && r'.completed == r.completed
    && r'.tasks.Keys == r.tasks.Keys && r'.attempts == r.attempts
  }

  lemma {:induction false} UnlockPush(r: Run, n: Name, now: Time)
    requires Core(r, None) && r.status.Open() && |r.journal| > 0
    requires Unlockable(r, n, WithStatus(r, TaskSucceeded))
    ensures Core(Moved(r, n, r.tasks[n].(status := TaskReady, scheduledAt := now),
                       TASK_SCHEDULED(0, Deps(r.def, n))), None)
  {
    hide Legal, Fold, Barrier, Acyclic, Resolved, UniqueNames, StepOk;
    var s, p := Fold(r.journal).value, TASK_SCHEDULED(0, Deps(r.def, n));
    var row := r.tasks[n].(status := TaskReady, scheduledAt := now);
    assert Agrees(r, n, n in s.tasks, TaskOf(s, n), false);
    forall m | m in Deps(r.def, n) ensures m in s.tasks && s.tasks[m].status.TaskSucceeded? {
      assert Agrees(r, m, m in s.tasks, TaskOf(s, m), false);
    }
    TaskEventOk(r, n, p);
    AttemptsSurvive(r, r, n, row, p);
    Push(r, None, r, n, row, p, None);
  }

  /** Exactly the listed tasks that were PENDING with every dependency done become READY. */
  lemma {:induction false} UnlockEachKeeps(r: Run, names: seq<Name>, done: set<Name>, now: Time)
    requires Core(r, None) && r.status.Open() && |r.journal| > 0 && done == WithStatus(r, TaskSucceeded)
    ensures var r' := UnlockEach(r, names, done, now);
            && Core(r', None)
            && SameRun(r, r')
            && forall n :: n in r.tasks ==>
                 r'.tasks[n] == if n in names && Unlockable(r, n, done)
                                then r.tasks[n].(status := TaskReady, scheduledAt := now) else r.tasks[n]
    decreases |names|
  {
    hide Base, Mirror;
    if names != [] {
      var n := names[0];
      assert forall x :: x in names <==> x == n || x in names[1..];
      if !Unlockable(r, n, done) {
        UnlockEachKeeps(r, names[1..], done, now);
      } else {
        UnlockPush(r, n, now);
        var row := r.tasks[n].(status := TaskReady, scheduledAt := now);
        var next := Moved(r, n, row, TASK_SCHEDULED(0, Deps(r.def, n)));
        assert WithStatus(next, TaskSucceeded) == done;
        UnlockEachKeeps(next, names[1..], done, now);
        forall x | x in r.tasks && x != n ensures Unlockable(next, x, done) <==> Unlockable(r, x, done) {
        }
      }
    }
  }

  /** After a success and its unlocks, no unlock was missed and nothing waits below a dead task. */
  lemma {:induction false} UnlockBalances(r: Run, won: Run, r': Run, n: Name, now: Time)
    requires Settled(r) && r.status.Open() && n in r.tasks && r.tasks[n].status.TaskRunning?
    requires UniqueNames(r.def.steps) && Resolved(r.def) && r.tasks.Keys == Names(r.def)
    requires won.def == r'.def == r.def && n in won.tasks && won.tasks == r.tasks[n := won.tasks[n]]
    requires won.tasks[n].status.TaskSucceeded? && r'.tasks.Keys == r.tasks.Keys
    requires forall x :: x in r.tasks ==>
               r'.tasks[x] == if x in Dependents(r.def, n) && Unlockable(won, x, WithStatus(won, TaskSucceeded))
                              then won.tasks[x].(status := TaskReady, scheduledAt := now) else won.tasks[x]
    ensures Balanced(r')
  {
    hide Resolved, UniqueNames, DependentsIn, Deps, WithStatus, WaitsAt, DeadClosed;
    forall x | x in r'.tasks ensures WaitsAt(r', x) {
      if r'.tasks[x].status.TaskPending? {
        assert WaitsAt(r, x);
        UnlockMissesNone(r, won, r', n, now, x);
      } else {
        NotPendingWaits(r', x);
      }
    }
    UnlockBuriesNone(r, r', n);
  }

  lemma NotPendingWaits(r: Run, x: Name)
    requires x in r.tasks && !r.tasks[x].status.TaskPending?
    ensures WaitsAt(r, x)
  {
  }

  /** Neither the success nor an unlock touches a dead task or one below it. */
  lemma UnlockBuriesNone(r: Run, r': Run, n: Name)
    requires NoneFailed(r) && DeadClosed(r) && n in r.tasks && r'.def == r.def && r'.tasks.Keys == r.tasks.Keys
    requires r.tasks[n].status.TaskRunning? && r'.tasks[n].status.TaskSucceeded?
    requires forall x :: x in r.tasks && x != n ==>
               || r'.tasks[x].status == r.tasks[x].status
               || (r.tasks[x].status.TaskPending? && r'.tasks[x].status.TaskReady?)
    ensures NoneFailed(r') && DeadClosed(r')
  {
    hide Deps;
    forall x, m | x in r'.tasks && m in Deps(r'.def, x) && m in r'.tasks && r'.tasks[m].status.TaskDead?
      ensures r'.tasks[x].status.TaskDead?
    {
      assert m in r.tasks && r.tasks[m].status.TaskDead?;
    }
  }

  lemma {:induction false} UnlockMissesNone(r: Run, won: Run, r': Run, n: Name, now: Time, x: Name)
    requires UniqueNames(r.def.steps) && Resolved(r.def) && r.tasks.Keys == Names(r.def)
    requires won.def == r'.def == r.def && n in won.tasks && won.tasks == r.tasks[n := won.tasks[n]]
    requires won.tasks[n].status.TaskSucceeded? && r'.tasks.Keys == r.tasks.Keys
    requires forall x :: x in r.tasks ==>
               r'.tasks[x] == if x in Dependents(r.def, n) && Unlockable(won, x, WithStatus(won, TaskSucceeded))
                              then won.tasks[x].(status := TaskReady, scheduledAt := now) else won.tasks[x]
    requires n in r.tasks && x in r.tasks && x != n && WaitsAt(r, x) && r'.tasks[x].status.TaskPending?
    ensures WaitsAt(r', x)
  {
    hide Resolved, UniqueNames, Find;
    var m :| m in Deps(r.def, x) && m in r.tasks && !r.tasks[m].status.TaskSucceeded?;
    if m != n {
      assert !r'.tasks[m].status.TaskSucceeded?;
    } else {
      DependentsIff(r.def, n, x);
      var m' :| m' in Deps(r.def, x) && m' !in WithStatus(won, TaskSucceeded);
      DepsAreNames(r.def, x, m');
      assert m' != n && !r'.tasks[m'].status.TaskSucceeded?;
    }
  }

  // ---------------------------------------------------------------- success

  /** Upserting one by one keeps the last artifact of each name. */
  lemma {:induction false} UpsertKeepsLast(rows: map<string, Artifact>, artifacts: seq<Artifact>)
    ensures Upsert(rows, artifacts) == rows + LastByName(artifacts)
    decreases |artifacts|
  {
    if artifacts != [] {
      var a, rest := artifacts[0], artifacts[1..];
      UpsertKeepsLast(rows[a.name := a], rest);
      LastByNameCons(a, rest);
      assert artifacts == [a] + rest;
    }
  }

  lemma {:induction false} LastByNameCons(a: Artifact, rest: seq<Artifact>)
    ensures LastByName([a] + rest) == map[a.name := a] + LastByName(rest)
    decreases |rest|
  {
    if rest == [] {
      assert [a] + rest == [a] && [a][..0] == [];
    } else {
      var init, last := rest[..|rest| - 1], rest[|rest| - 1];
      LastByNameCons(a, init);
      assert ([a] + rest)[..|rest|] == [a] + init;
    }
  }

  lemma {:induction false} SuccessPush(r: Run, n: Name, k: int, output: string, artifacts: seq<Artifact>)
    requires Core(r, None) && r.status.Open() && |r.journal| > 0
    requires n in r.tasks && r.tasks[n].status.TaskRunning? && r.tasks[n].attempt == k
    ensures Core(Moved(RecordArtifacts(r, n, artifacts), n,
                       r.tasks[n].(status := TaskSucceeded, lease := None, output := output),
                       TASK_SUCCEEDED(k, output, artifacts)), None)
  {
    hide Barrier, Mirror, Legal, Fold, Sound, StepOk, Agrees, Beside, BarrierSafe, RowOk, AttemptOk, MaxAttempts,
         RecordArtifacts;
    var side, p := RecordArtifacts(r, n, artifacts), TASK_SUCCEEDED(k, output, artifacts);
    var row := r.tasks[n].(status := TaskSucceeded, lease := None, output := output);
    var t := Reduced(r, None, n);
    SuccessRow(r, n, output, artifacts);
    SuccessAgrees(r, n, n in Fold(r.journal).value.tasks, t, k, output, artifacts);
    TaskEventOk(r, n, p);
    AttemptsSurvive(r, side, n, row, p);
    Push(r, None, side, n, row, p, None);
  }

  lemma SuccessRow(r: Run, n: Name, output: string, artifacts: seq<Artifact>)
    requires n in r.tasks && r.tasks[n].status.TaskRunning? && RowOk(r.tasks[n], MaxAttempts(r.def, n))
    ensures var side := RecordArtifacts(r, n, artifacts);
            var row := r.tasks[n].(status := TaskSucceeded, lease := None, output := output);
            && Beside(r, side, n) && BarrierSafe(r, n, row.status) && RowOk(row, MaxAttempts(r.def, n))
            && side.tasks == r.tasks && side.attempts == r.attempts && side.deadLetters == r.deadLetters
  {
    hide MaxAttempts, Upsert;
  }

  /** The upserted rows are the artifacts the event lists, each name's last. */
  lemma {:induction false} SuccessAgrees(r: Run, n: Name, known: bool, t: TaskState, k: int, output: string,
                                         artifacts: seq<Artifact>)
    requires n in r.tasks && r.tasks[n].status.TaskRunning? && r.tasks[n].attempt == k
    requires Agrees(r, n, known, t, false) && t.artifacts == []
    ensures Agrees(Moved(RecordArtifacts(r, n, artifacts), n,
                         r.tasks[n].(status := TaskSucceeded, lease := None, output := output),
                         TASK_SUCCEEDED(k, output, artifacts)),
                   n, true, ApplyTask(t, TASK_SUCCEEDED(k, output, artifacts)), false)
  {
    hide Upsert, LastByName;
    LastByNameEmpty();
    UpsertKeepsLast(map[], artifacts);
    assert map[] + LastByName(artifacts) == LastByName(artifacts);
  }

  lemma LastByNameEmpty()
    ensures LastByName([]) == map[]
  {
  }

  lemma {:induction false} SucceedKeeps(r: Run, n: Name, w: WorkerId, k: int, output: string,
                                        artifacts: seq<Artifact>, now: Time)
    requires RunInv(r)
    ensures var out := Succeed(r, n, w, k, output, artifacts, now);
            && (out.Ok? <==> HeldBy(r, n, {TaskRunning}, w, k) && Storable(artifacts) && !r.completed)
            && (out.Ok? ==> RunInv(out.value))
  {
    hide RunInv, Storable, Settle, UnlockDependents;
    if HeldBy(r, n, {TaskRunning}, w, k) && Storable(artifacts) && !r.completed {
      SucceedKeepsHeld(r, n, k, output, artifacts, now);
    }
  }

  lemma {:induction false} SucceedKeepsHeld(r: Run, n: Name, k: int, output: string,
                                            artifacts: seq<Artifact>, now: Time)
    requires RunInv(r) && !r.completed
    requires n in r.tasks && r.tasks[n].status.TaskRunning? && r.tasks[n].attempt == k
    ensures var won := Moved(RecordArtifacts(r, n, artifacts), n,
                             r.tasks[n].(status := TaskSucceeded, lease := None, output := output),
                             TASK_SUCCEEDED(k, output, artifacts));
            var out := Settle(UnlockDependents(won, n, now));
            out.Ok? && RunInv(out.value)
  {
    hide RunInv, Core, Settled, Balanced, Settle, Unlockable, UnlockEach;
    RowFacts(r, n);
    RunFacts(r);
    SuccessPush(r, n, k, output, artifacts);
    var won := Moved(RecordArtifacts(r, n, artifacts), n,
                     r.tasks[n].(status := TaskSucceeded, lease := None, output := output),
                     TASK_SUCCEEDED(k, output, artifacts));
    UnlockEachKeeps(won, Dependents(r.def, n), WithStatus(won, TaskSucceeded), now);
    UnlockBalances(r, won, UnlockDependents(won, n, now), n, now);
    SettleKeeps(UnlockDependents(won, n, now));
  }

  lemma RunFacts(r: Run)
    requires RunInv(r)
    ensures Settled(r) && Sound(r.def) && Barrier(r) && r.tasks.Keys == Names(r.def)
    ensures UniqueNames(r.def.steps) && Resolved(r.def)
  {
  }

  // ---------------------------------------------------------------- death

  /** Below a task that has not succeeded, nothing has left PENDING except by dying. */
  lemma {:induction false} BelowIsWaiting(r: Run, p: seq<Name>)
    requires Barrier(r) && IsPath(r.def, p) && |p| >= 2
    requires p[|p| - 1] in r.tasks ==> !r.tasks[p[|p| - 1]].status.TaskSucceeded?
    requires p[0] in r.tasks
    ensures r.tasks[p[0]].status.TaskPending? || r.tasks[p[0]].status.TaskDead?
  {
    assert BarrierAt(r, p[0]) && p[1] in Deps(r.def, p[0]);
    if |p| > 2 && p[1] in r.tasks {
      BelowIsWaiting(r, p[1..]);
    }
  }

  /** Dead-letter a task that failed, expired for good, or waits below a dead one. */
  lemma {:induction false} DeathPush(r: Run, mid: Option<Name>, n: Name, k: int, reason: string, v: int)
    requires Core(r, mid) && mid in {None, Some(n)} && r.status.Open() && |r.journal| > 0
    requires n in r.tasks && r.tasks[n].attempt == k && v == Max(1, k)
    requires || r.tasks[n].status.TaskFailed?
             || (r.tasks[n].status.Holds() && mid == Some(n))
             || (r.tasks[n].status.TaskPending? &&
                 exists m :: m in Deps(r.def, n) && m in r.tasks && r.tasks[m].status.TaskDead?)
    ensures Core(Moved(r.(deadLetters := r.deadLetters[n := v]), n,
                       r.tasks[n].(status := TaskDead, worker := None, lease := None),
                       TASK_DEAD_LETTERED(k, reason)), None)
  {
    hide Barrier, Legal, Fold, Sound, StepOk, Mirror, Agrees, Beside, BarrierSafe, RowOk, AttemptOk, MaxAttempts, Deps;
    var side, p := r.(deadLetters := r.deadLetters[n := v]), TASK_DEAD_LETTERED(k, reason);
    var row := r.tasks[n].(status := TaskDead, worker := None, lease := None);
    DeathEventOk(r, mid, n, p);
    DeathRow(r, n, v, row);
    AttemptsSurvive(r, side, n, row, p);
    DeathAgrees(r, mid, n, k, reason, v);
    Push(r, mid, side, n, row, p, None);
  }

  lemma DeathRow(r: Run, n: Name, v: int, row: TaskRow)
    requires n in r.tasks && !r.tasks[n].status.TaskSucceeded? && RowOk(r.tasks[n], MaxAttempts(r.def, n))
    requires row == r.tasks[n].(status := TaskDead, worker := None, lease := None)
    ensures Beside(r, r.(deadLetters := r.deadLetters[n := v]), n)
    ensures BarrierSafe(r, n, row.status) && RowOk(row, MaxAttempts(r.def, n))
  {
    hide MaxAttempts;
  }

  lemma {:induction false} DeathAgrees(r: Run, mid: Option<Name>, n: Name, k: int, reason: string, v: int)
    requires Core(r, mid) && n in r.tasks && r.tasks[n].attempt == k && !r.tasks[n].status.TaskSucceeded?
    requires v == Max(1, k)
    ensures var dead := Moved(r.(deadLetters := r.deadLetters[n := v]), n,
                              r.tasks[n].(status := TaskDead, worker := None, lease := None),
                              TASK_DEAD_LETTERED(k, reason));
            && Agrees(dead, n, true, ApplyTask(TaskOf(Fold(r.journal).value, n), TASK_DEAD_LETTERED(k, reason)), false)
            && dead.deadLetters.Keys <= r.tasks.Keys
  {
    hide Barrier, Legal, Fold, Sound, RowsOk, Agrees;
    var s := Fold(r.journal).value;
    assert Agrees(r, n, n in s.tasks, TaskOf(s, n), mid == Some(n));
    DeadAgrees(r, n, n in s.tasks, TaskOf(s, n), mid == Some(n), k, reason, v);
  }

  lemma DeadAgrees(r: Run, n: Name, known: bool, t: TaskState, expiring: bool, k: int, reason: string, v: int)
    requires n in r.tasks && Agrees(r, n, known, t, expiring) && r.tasks[n].attempt == k && v == Max(1, k)
    requires !r.tasks[n].status.TaskSucceeded?
    ensures Agrees(Moved(r.(deadLetters := r.deadLetters[n := v]), n,
                         r.tasks[n].(status := TaskDead, worker := None, lease := None),
                         TASK_DEAD_LETTERED(k, reason)),
                   n, true, ApplyTask(t, TASK_DEAD_LETTERED(k, reason)), false)
  {
    hide LastByName;
  }

  lemma {:induction false} DeathEventOk(r: Run, mid: Option<Name>, n: Name, p: Payload)
    requires Core(r, mid) && mid in {None, Some(n)} && r.status.Open() && |r.journal| > 0
    requires n in r.tasks && p.TASK_DEAD_LETTERED? && p.attempts == r.tasks[n].attempt
    requires || r.tasks[n].status.TaskFailed?
             || (r.tasks[n].status.Holds() && mid == Some(n))
             || (r.tasks[n].status.TaskPending? &&
                 exists m :: m in Deps(r.def, n) && m in r.tasks && r.tasks[m].status.TaskDead?)
    ensures StepOk(r.def, Fold(r.journal).value, NextEvent(r, n, p))
  {
    hide Barrier, Legal, Fold, Sound, StepOk;
    var s := Fold(r.journal).value;
    assert Agrees(r, n, n in s.tasks, TaskOf(s, n), mid == Some(n));
    if r.tasks[n].status.TaskPending? {
      ReducedStatuses(r, mid, s);
      assert SomeDepDead(r.def, s, n);
    }
    TaskEventOk(r, n, p);
  }

  /** Each listed task waits on something dead, or on something listed before it. */
  ghost predicate Doomed(r: Run, names: seq<Name>) {
    forall i :: 0 <= i < |names| ==> DoomedAt(r, names, i)
  }

  ghost predicate DoomedAt(r: Run, names: seq<Name>, i: int)
    requires 0 <= i < |names|
  {
    exists y :: y in Deps(r.def, names[i]) && ((y in r.tasks && r.tasks[y].status.TaskDead?) || y in names[..i])
  }

  predicate Waiting(r: Run, n: Name) {
    n in r.tasks && (r.tasks[n].status.TaskPending? || r.tasks[n].status.TaskDead?)
  }

  /** Abandonment kills exactly the listed tasks, and its status guard always hits. */
  lemma {:induction false} AbandonEachKeeps(r: Run, names: seq<Name>, reason: string)
    requires Core(r, None) && r.status.Open() && |r.journal| > 0
    requires Doomed(r, names) && forall x :: x in names ==> Waiting(r, x)
    ensures var out := AbandonEach(r, names, reason);
            && out.Ok? && Core(out.value, None)
            && SameRun(r, out.value)
            && forall n :: n in r.tasks ==>
                 if n in names then out.value.tasks[n].status.TaskDead?
                 else out.value.tasks[n] == r.tasks[n]
    decreases |names|
  {
    hide Base, Mirror;
    if names != [] {
      var n := names[0];
      assert Waiting(r, n) && DoomedAt(r, names, 0) && names[..0] == [];
      assert forall x :: x in names <==> x == n || x in names[1..];
      if r.tasks[n].status.Terminal() {
        DoomedRest(r, r, names);
        AbandonEachKeeps(r, names[1..], reason);
      } else {
        var next := Buried(r, n, reason);
        DoomedRest(r, next, names);
        AbandonEachKeeps(next, names[1..], reason);
      }
    }
  }

  lemma {:induction false} Buried(r: Run, n: Name, reason: string) returns (next: Run)
    requires Core(r, None) && r.status.Open() && |r.journal| > 0
    requires n in r.tasks && r.tasks[n].status.TaskPending?
    requires exists m :: m in Deps(r.def, n) && m in r.tasks && r.tasks[m].status.TaskDead?
    ensures DeadLetter(r, n, r.tasks[n].attempt, reason) == Ok(next)
    ensures Core(next, None) && SameRun(r, next) && |next.journal| > 0
    ensures next.tasks == r.tasks[n := next.tasks[n]] && next.tasks[n].status.TaskDead?
  {
    hide Barrier, Sound, Mirror, Legal, Fold;
    NotBuriedYet(r, n);
    DeathPush(r, None, n, 0, reason, 1);
    next := Moved(r.(deadLetters := r.deadLetters[n := 1]), n,
                  r.tasks[n].(status := TaskDead, worker := None, lease := None),
                  TASK_DEAD_LETTERED(0, reason));
  }

  lemma {:induction false} NotBuriedYet(r: Run, n: Name)
    requires Core(r, None) && n in r.tasks && r.tasks[n].status.TaskPending?
    ensures n !in r.deadLetters && r.tasks[n].attempt == 0 && r.tasks[n].lease.None?
  {
    hide Barrier, Sound, Legal, Fold;
    var s := Fold(r.journal).value;
    assert Agrees(r, n, n in s.tasks, TaskOf(s, n), false);
  }

  lemma DoomedRest(r: Run, next: Run, names: seq<Name>)
    requires names != [] && Doomed(r, names) && next.def == r.def
    requires names[0] in next.tasks && next.tasks[names[0]].status.TaskDead?
    requires forall y :: y in r.tasks && r.tasks[y].status.TaskDead? ==>
               y in next.tasks && next.tasks[y].status.TaskDead?
    ensures Doomed(next, names[1..])
  {
    forall i | 0 <= i < |names[1..]| ensures DoomedAt(next, names[1..], i) {
      assert DoomedAt(r, names, i + 1);
      assert names[..i + 1] == [names[0]] + names[1..][..i];
    }
  }

  /** After a death, exactly the forward closure of the dead task joins it. */
  lemma {:induction false} AbandonKeeps(r: Run, n: Name)
    requires Core(r, None) && r.status.Open() && |r.journal| > 0 && n in r.tasks && r.tasks[n].status.TaskDead?
    ensures var out := AbandonDependents(r, n);
            && out.Ok? && Core(out.value, None)
            && SameRun(r, out.value)
            && forall x :: x in r.tasks ==>
                 if x in Descendants(r.def, n) then out.value.tasks[x].status.TaskDead? && Waiting(r, x)
                 else out.value.tasks[x] == r.tasks[x]
  {
    hide Mirror, JournalOk, Acyclic, AbandonEach, Bfs;
    var names := Descendants(r.def, n);
    DescendantsIff(r.def, n);
    forall x | x in names ensures Waiting(r, x) {
      var p :| Connects(r.def, p, x, n);
      DepsAreNames(r.def, x, p[1]);
      BelowIsWaiting(r, p);
    }
    forall i | 0 <= i < |names| ensures DoomedAt(r, names, i) {
      var y :| (y in {n} || y in names[..i]) && y in Deps(r.def, names[i]);
    }
    AbandonEachKeeps(r, names, "upstream task " + n + " did not succeed: ");
  }

  /** Before: `r` settled. After: `n` and everything below it is dead, nothing else changed. */
  lemma {:induction false} DeathBalances(r: Run, r': Run, n: Name)
    requires Settled(r) && r.status.Open()
    requires UniqueNames(r.def.steps) && Resolved(r.def) && r.tasks.Keys == Names(r.def)
    requires n in r.tasks && r'.def == r.def && r'.tasks.Keys == r.tasks.Keys
    requires forall x :: x in r.tasks ==>
               if x == n || x in Descendants(r.def, n) then r'.tasks[x].status.TaskDead?
               else r'.tasks[x] == r.tasks[x]
    ensures Balanced(r')
  {
    hide Bfs;
    DescendantsIff(r.def, n);
    forall x, m | x in r'.tasks && m in Deps(r.def, x) && m in r'.tasks && r'.tasks[m].status.TaskDead?
      ensures r'.tasks[x].status.TaskDead?
    {
      if m == n || m in Descendants(r.def, n) { BelowStep(r.def, x, m, n); }
    }
    forall x | x in r'.tasks && r'.tasks[x].status.TaskPending? ensures WaitsAt(r', x) {
      assert WaitsAt(r, x);
      var m :| m in Deps(r.def, x) && m in r.tasks && !r.tasks[m].status.TaskSucceeded?;
      assert !r'.tasks[m].status.TaskSucceeded?;
    }
  }

  /** From the moment `n` is dead to the end of the transaction that killed it. */
  lemma {:induction false} DeathSettles(r: Run, dead: Run, n: Name)
    requires RunInv(r) && !r.completed && n in r.tasks && !r.tasks[n].status.Terminal()
    requires Core(dead, None) && SameRun(r, dead) && |dead.journal| > 0
    requires dead.tasks == r.tasks[n := dead.tasks[n]] && dead.tasks[n].status.TaskDead?
    ensures AbandonDependents(dead, n).Ok?
    ensures Settle(AbandonDependents(dead, n).value).Ok?
    ensures RunInv(Settle(AbandonDependents(dead, n).value).value)
    ensures forall x :: x in r.tasks && x != n && r.tasks[x].status.Holds() ==>
              x in Settle(AbandonDependents(dead, n).value).value.tasks &&
              Settle(AbandonDependents(dead, n).value).value.tasks[x] == r.tasks[x]
  {
    hide RunInv, Core, Settled, Balanced, Settle, AbandonDependents, Bfs;
    RowFacts(r, n);
    RunFacts(r);
    AbandonKeeps(dead, n);
    DeathBalances(r, AbandonDependents(dead, n).value, n);
    SettleKeeps(AbandonDependents(dead, n).value);
    SettleKeepsRows(AbandonDependents(dead, n).value);
  }

  lemma SettleKeepsRows(r: Run)
    requires Settle(r).Ok?
    ensures Settle(r).value.tasks == r.tasks
  {
  }
}

/**
 What each transaction leaves behind on one run: every row it writes, every row it leaves alone,
 and the events it adds, word for word. The rows and events are written out here from what the
 operations promise, not in terms of the functions of Tables.
 */
module Effects {
  import opened Common
  import opened Statuses
  import opened Text
  import opened Events
  import opened Workflow
  import opened Tables
  import opened Invariant
  import opened Steps
  import opened Outcomes
  import opened Recovery

  /** An event as its reader sees it: whom it concerns, and what it says. */
  type Told = (Name, Payload)

  /** From `r` to `r'` the journal grows by exactly these events. */
  predicate Tells(r: Run, r': Run, told: seq<Told>) {
    && r.journal <= r'.journal && |r'.journal| == |r.journal| + |told|
    && forall i :: 0 <= i < |told| ==> Says(r'.journal[|r.journal| + i], told[i])
  }

  predicate Says(e: Event, told: Told) {
    e.task == told.0 && e.payload == told.1
  }

  /** A run but for its journal. */
  function Apart(r: Run): Run {
    r.(journal := [], eventSeq := 0)
  }

  lemma TellsNothing(r: Run, r': Run)
    requires r'.journal == r.journal
    ensures Tells(r, r', [])
  {
  }

  lemma TellsOne(r: Run, r': Run, n: Name, p: Payload)
    requires r'.journal == Log(r, n, p).journal
    ensures Tells(r, r', [(n, p)])
  {
  }

  lemma TellsBoth(a: Run, b: Run, c: Run, first: seq<Told>, second: seq<Told>)
    requires Tells(a, b, first) && Tells(b, c, second)
    ensures Tells(a, c, first + second)
  {
    forall i | 0 <= i < |first + second| ensures Says(c.journal[|a.journal| + i], (first + second)[i]) {
      if i < |first| {
        assert Says(b.journal[|a.journal| + i], first[i]) && c.journal[|a.journal| + i] == b.journal[|a.journal| + i];
      } else {
        assert Says(c.journal[|b.journal| + (i - |first|)], second[i - |first|]);
      }
    }
  }

  lemma TellsTwo(r: Run, mid: Run, r': Run, n: Name, p: Payload, q: Payload)
    requires mid.journal == Log(r, n, p).journal && r'.journal == Log(mid, n, q).journal
    ensures Tells(r, r', [(n, p), (n, q)])
  {
    hide Tells;
    TellsOne(r, mid, n, p);
    TellsOne(mid, r', n, q);
    TellsBoth(r, mid, r', [(n, p)], [(n, q)]);
    assert [(n, p)] + [(n, q)] == [(n, p), (n, q)];
  }

  // ---------------------------------------------------------------- what a definition declares

  /** The attempts a step declares, or three. */
  function Declared(step: Step): int {
    if step.retry.Some? then step.retry.value.maxAttempts else 3
  }

  lemma DeclaredAttempts(d: Definition, i: nat)
    requires UniqueNames(d.steps) && i < |d.steps|
    ensures MaxAttempts(d, d.steps[i].name) == Declared(d.steps[i])
    ensures Deps(d, d.steps[i].name) == d.steps[i].dependsOn
  {
    FindAt(d.steps, i);
  }

  /** What a step declares about its retries, and otherwise three attempts, 1s doubling up to 30s, 20% jitter. */
  lemma DeclaredPolicy(d: Definition, i: nat)
    requires UniqueNames(d.steps) && i < |d.steps|
    ensures d.steps[i].retry.Some? ==> RetryFor(d, d.steps[i].name) == d.steps[i].retry.value
    ensures d.steps[i].retry.None? ==>
              RetryFor(d, d.steps[i].name) == RetryPolicy(3, 1_000_000_000, 2.0, 30_000_000_000, 0.2)
  {
    FindAt(d.steps, i);
  }

  // ---------------------------------------------------------------- starting

  /** A start: the task and the run are RUNNING, the attempt is on record, and both are announced. */
  lemma StartEffect(r: Run, n: Name, w: WorkerId, k: int, handler: string)
    requires RunInv(r) && Start(r, n, w, k, handler).Ok?
    ensures n in r.tasks && r.tasks[n].status.TaskLeased? && r.tasks[n].worker == Some(w) && r.tasks[n].attempt == k
    ensures var r' := Start(r, n, w, k, handler).value;
            && Apart(r') == Apart(r.(status := RunRunning, attempts := r.attempts + {(n, k)},
                                     tasks := r.tasks[n := r.tasks[n].(status := TaskRunning)]))
            && Tells(r, r', [(n, TASK_STARTED(k, handler))] +
                            if r.status.RunQueued? then [("", RUN_STARTED)] else [])
  {
    hide RunInv, Tells, Core, RowOk;
    RowFacts(r, n);
    var running := SetRow(r, n, r.tasks[n].(status := TaskRunning)).(attempts := r.attempts + {(n, k)});
    var logged := Log(running, n, TASK_STARTED(k, handler));
    var r' := Start(r, n, w, k, handler).value;
    TellsOne(r, logged, n, TASK_STARTED(k, handler));
    if r.status.RunQueued? {
      TellsOne(logged, r', "", RUN_STARTED);
      TellsBoth(r, logged, r', [(n, TASK_STARTED(k, handler))], [("", RUN_STARTED)]);
    } else {
      TellsNothing(logged, r');
      TellsBoth(r, logged, r', [(n, TASK_STARTED(k, handler))], []);
    }
  }

  // ---------------------------------------------------------------- the verdict

  /** What is said of a run all of whose tasks have ended; nothing while one has not. */
  function VerdictStory(r: Run): seq<Told> {
    var dead := set n | n in r.tasks && r.tasks[n].status.TaskDead?;
    if exists n :: n in r.tasks && !r.tasks[n].status.Terminal() then []
    else if dead == {} then [("", RUN_SUCCEEDED(|r.tasks|))]
    else [("", RUN_FAILED("tasks dead-lettered",
                          Decimal(|dead|) + " of " + Decimal(|r.tasks|) + " tasks did not succeed"))]
  }

  function VerdictStatus(r: Run): RunStatus {
    if exists n :: n in r.tasks && !r.tasks[n].status.Terminal() then r.status
    else if exists n :: n in r.tasks && r.tasks[n].status.TaskDead? then RunFailed
    else RunSucceeded
  }

  lemma SettleEffect(r: Run)
    requires r.status.Open() && !r.completed && Settle(r).Ok?
    ensures var r' := Settle(r).value;
            && Apart(r') == Apart(r.(status := VerdictStatus(r), completed := VerdictStatus(r).Terminal()))
            && Tells(r, r', VerdictStory(r))
  {
    hide Tells;
    CountsDecide(r);
    var dead := set n | n in r.tasks && r.tasks[n].status.TaskDead?;
    assert dead == WithStatus(r, TaskDead);
    assert |r.tasks| == |r.tasks.Keys|;
    if Unfinished(r) {
      TellsNothing(r, r);
    } else if dead == {} {
      TellsOne(r, Settle(r).value, "", RUN_SUCCEEDED(|r.tasks|));
    } else {
      var detail := Decimal(|dead|) + " of " + Decimal(|r.tasks|) + " tasks did not succeed";
      TellsOne(r, Settle(r).value, "", RUN_FAILED("tasks dead-lettered", detail));
    }
  }

  // ---------------------------------------------------------------- success

  /** `x` waited for `n` and, with `n` done, for nothing else. */
  predicate BecomesReady(r: Run, n: Name, x: Name) {
    && x in r.tasks && r.tasks[x].status.TaskPending?
    && n in Deps(r.def, x)
    && forall m :: m in Deps(r.def, x) ==> m == n || (m in r.tasks && r.tasks[m].status.TaskSucceeded?)
  }

  /** The announcements of those that become ready, in the given order. */
  function ReadyStory(r: Run, n: Name, names: seq<Name>): seq<Told>
    decreases |names|
  {
    if names == [] then []
    else (if BecomesReady(r, n, names[0]) then [(names[0], TASK_SCHEDULED(0, Deps(r.def, names[0])))] else [])
         + ReadyStory(r, n, names[1..])
  }

  /** The rows after a success: the task's own, those it makes ready, and all others as they were. */
  predicate SucceededRows(r: Run, r': Run, n: Name, output: string, now: Time)
    requires n in r.tasks
  {
    && r'.tasks.Keys == r.tasks.Keys
    && forall x :: x in r.tasks ==>
         r'.tasks[x] ==
         if x == n then r.tasks[n].(status := TaskSucceeded, lease := None, output := output)
         else if BecomesReady(r, n, x) then r.tasks[x].(status := TaskReady, scheduledAt := now)
         else r.tasks[x]
  }

  lemma {:induction false} UnlockStory(won: Run, names: seq<Name>, done: set<Name>, now: Time, r: Run, n: Name)
    requires NoDups(names) && won.def == r.def
    requires forall x :: x in names ==> (Unlockable(won, x, done) <==> BecomesReady(r, n, x))
    ensures Tells(won, UnlockEach(won, names, done, now), ReadyStory(r, n, names))
    decreases |names|
  {
    hide Tells, BecomesReady, Deps;
    if names == [] {
      TellsNothing(won, won);
    } else {
      var x, rest := names[0], names[1..];
      assert forall y :: y in rest ==> y in names && y != x;
      if !Unlockable(won, x, done) {
        UnlockStory(won, rest, done, now, r, n);
        assert [] + ReadyStory(r, n, rest) == ReadyStory(r, n, rest);
      } else {
        var told := (x, TASK_SCHEDULED(0, Deps(r.def, x)));
        var next := Log(SetRow(won, x, won.tasks[x].(status := TaskReady, scheduledAt := now)), x, told.1);
        TellsOne(won, next, x, told.1);
        UnlockStory(next, rest, done, now, r, n);
        TellsBoth(won, next, UnlockEach(next, rest, done, now), [told], ReadyStory(r, n, rest));
      }
    }
  }

  lemma {:induction false} DependentsNoDups(steps: seq<Step>, n: Name)
    requires UniqueNames(steps)
    ensures NoDups(DependentsIn(steps, n))
  {
    if steps != [] {
      DependentsNoDups(steps[1..], n);
      DependentsInIff(steps[1..], n, steps[0].name);
    }
  }

  /** In terms of the row of `n` once it has succeeded. */
  lemma UnlockableIsReady(r: Run, won: Run, n: Name, x: Name)
    requires UniqueNames(r.def.steps) && won.def == r.def && n in r.tasks && n in won.tasks
    requires won.tasks == r.tasks[n := won.tasks[n]] && won.tasks[n].status.TaskSucceeded?
    requires !r.tasks[n].status.TaskPending? && x in Dependents(r.def, n)
    ensures Unlockable(won, x, WithStatus(won, TaskSucceeded)) <==> BecomesReady(r, n, x)
  {
    hide Deps, Dependents, UniqueNames;
    DependentsIff(r.def, n, x);
    assert forall m :: m in WithStatus(won, TaskSucceeded) <==>
                       m == n || (m in r.tasks && r.tasks[m].status.TaskSucceeded?);
  }

  /** The unlocking loop touches tasks and the journal only. */
  lemma {:induction false} UnlockFrame(r: Run, names: seq<Name>, done: set<Name>, now: Time)
    ensures var r' := UnlockEach(r, names, done, now); Apart(r') == Apart(r.(tasks := r'.tasks))
    decreases |names|
  {
    hide Deps;
    if names != [] {
      if !Unlockable(r, names[0], done) {
        UnlockFrame(r, names[1..], done, now);
      } else {
        var ready := SetRow(r, names[0], r.tasks[names[0]].(status := TaskReady, scheduledAt := now));
        UnlockFrame(Log(ready, names[0], TASK_SCHEDULED(0, Deps(r.def, names[0]))), names[1..], done, now);
      }
    }
  }

  lemma {:induction false} UnlockedRows(r: Run, won: Run, n: Name, now: Time)
    requires UniqueNames(r.def.steps) && won.def == r.def && n in r.tasks && n in won.tasks
    requires won.tasks == r.tasks[n := won.tasks[n]] && won.tasks[n].status.TaskSucceeded?
    requires won.tasks[n] == r.tasks[n].(status := TaskSucceeded, lease := None, output := won.tasks[n].output)
    requires !r.tasks[n].status.TaskPending?
    requires Core(won, None) && won.status.Open() && |won.journal| > 0
    ensures var unlocked := UnlockDependents(won, n, now);
            && SucceededRows(r, unlocked, n, won.tasks[n].output, now)
            && Tells(won, unlocked, ReadyStory(r, n, Dependents(r.def, n)))
  {
    hide Core, Tells, BecomesReady, UnlockEach, Unlockable, UniqueNames, Deps, ReadyStory;
    var names, done := Dependents(r.def, n), WithStatus(won, TaskSucceeded);
    forall x | x in names ensures Unlockable(won, x, done) <==> BecomesReady(r, n, x) {
      UnlockableIsReady(r, won, n, x);
    }
    forall x | BecomesReady(r, n, x) ensures x in names && x != n { ReadyIsDependent(r, n, x); }
    DependentsNoDups(r.def.steps, n);
    UnlockEachKeeps(won, names, done, now);
    UnlockStory(won, names, done, now, r, n);
    forall x | x in r.tasks && x != n && x !in names ensures !BecomesReady(r, n, x) {
    }
  }

  lemma ReadyIsDependent(r: Run, n: Name, x: Name)
    requires UniqueNames(r.def.steps) && BecomesReady(r, n, x) && n in r.tasks && !r.tasks[n].status.TaskPending?
    ensures x in Dependents(r.def, n) && x != n
  {
    DependentsIff(r.def, n, x);
  }

  /** The verdict looks at the tasks only. */
  lemma SameTasksSameVerdict(r: Run, r': Run)
    requires r'.tasks == r.tasks
    ensures VerdictStory(r') == VerdictStory(r)
    ensures r'.status == r.status ==> VerdictStatus(r') == VerdictStatus(r)
  {
  }

  /** A success: its row, its artifacts, what it unlocks and when, the verdict, and nothing else. */
  lemma {:induction false} SuccessEffect(r: Run, n: Name, w: WorkerId, k: int, output: string,
                                         artifacts: seq<Artifact>, now: Time)
    requires RunInv(r) && Succeed(r, n, w, k, output, artifacts, now).Ok?
    ensures n in r.tasks && r.tasks[n].status.TaskRunning? && r.tasks[n].worker == Some(w) && r.tasks[n].attempt == k
    ensures var r' := Succeed(r, n, w, k, output, artifacts, now).value;
            && SucceededRows(r, r', n, output, now)
            && Concluded(r, r', r.deadLetters, r.artifacts[n := ArtifactsOf(r, n) + LastByName(artifacts)])
            && Tells(r, r', [(n, TASK_SUCCEEDED(k, output, artifacts))]
                            + ReadyStory(r, n, Dependents(r.def, n)) + VerdictStory(r'))
  {
    hide RunInv, Core, Tells, BecomesReady, Settle, Storable, Dependents, UnlockEach, ReadyStory, VerdictStory,
         Upsert, Concluded, SucceededRows;
    RowFacts(r, n);
    RunFacts(r);
    SucceedKeeps(r, n, w, k, output, artifacts, now);
    UpsertKeepsLast(ArtifactsOf(r, n), artifacts);
    var told := [(n, TASK_SUCCEEDED(k, output, artifacts))];
    var done := SetRow(r, n, r.tasks[n].(status := TaskSucceeded, lease := None, output := output));
    var won := Log(RecordArtifacts(done, n, artifacts), n, TASK_SUCCEEDED(k, output, artifacts));
    SuccessPush(r, n, k, output, artifacts);
    TellsOne(r, won, n, TASK_SUCCEEDED(k, output, artifacts));
    UnlockedRows(r, won, n, now);
    UnlockFrame(won, Dependents(r.def, n), WithStatus(won, TaskSucceeded), now);
    var unlocked := UnlockDependents(won, n, now);
    TellsBoth(r, won, unlocked, told, ReadyStory(r, n, Dependents(r.def, n)));
    Conclude(r, unlocked, told + ReadyStory(r, n, Dependents(r.def, n)));
    SameTaskRows(r, unlocked, Settle(unlocked).value, n, output, now);
  }

  lemma SameTaskRows(r: Run, a: Run, b: Run, n: Name, output: string, now: Time)
    requires n in r.tasks && SucceededRows(r, a, n, output, now) && b.tasks == a.tasks
    ensures SucceededRows(r, b, n, output, now)
  {
    hide BecomesReady;
  }

  /** `r'` is `r` with new task rows, these dead letters and artifacts, and the verdict the rows call for. */
  predicate Concluded(r: Run, r': Run, letters: map<Name, int>, artifacts: map<Name, map<string, Artifact>>) {
    var verdict := VerdictStatus(r.(tasks := r'.tasks));
    Apart(r') == Apart(r.(tasks := r'.tasks, deadLetters := letters, artifacts := artifacts,
                          status := verdict, completed := verdict.Terminal()))
  }

  /** Settling a run that was open concludes it. */
  lemma Conclude(r: Run, done: Run, told: seq<Told>)
    requires r.status.Open() && !r.completed && Tells(r, done, told) && Settle(done).Ok?
    requires Apart(done) == Apart(r.(tasks := done.tasks, deadLetters := done.deadLetters, artifacts := done.artifacts))
    ensures var r' := Settle(done).value;
            && r'.tasks == done.tasks
            && Concluded(r, r', done.deadLetters, done.artifacts)
            && Tells(r, r', told + VerdictStory(r'))
  {
    hide Tells, Settle, VerdictStory;
    SettleEffect(done);
    var r' := Settle(done).value;
    assert Apart(r').tasks == r'.tasks == done.tasks;
    SameTasksSameVerdict(done, r');
    assert VerdictStatus(r.(tasks := r'.tasks)) == VerdictStatus(done);
    TellsBoth(r, done, r', told, VerdictStory(done));
  }

  // ---------------------------------------------------------------- death

  /** Dead already, or waiting and never attempted. */
  predicate Abandonable(r: Run, x: Name) {
    && x in r.tasks
    && (r.tasks[x].status.TaskDead? ||
        (r.tasks[x].status.TaskPending? && r.tasks[x].attempt == 0 && x !in r.deadLetters))
  }

  /** The dead letters of those among `names` that were still waiting, in that order. */
  function BurialStory(r: Run, names: seq<Name>, reason: string): seq<Told>
    decreases |names|
  {
    if names == [] then []
    else (if names[0] in r.tasks && r.tasks[names[0]].status.TaskPending?
          then [(names[0], TASK_DEAD_LETTERED(0, reason))] else [])
         + BurialStory(r, names[1..], reason)
  }

  function Waiters(r: Run, names: seq<Name>): set<Name> {
    set x | x in names && x in r.tasks && r.tasks[x].status.TaskPending?
  }

  /** Every waiter among `names` is dead and has a letter; every other row and letter is as it was. */
  predicate WaitersDie(r: Run, r': Run, names: seq<Name>) {
    && r'.tasks.Keys == r.tasks.Keys
    && (forall x :: x in r.tasks ==>
          r'.tasks[x] == if x in Waiters(r, names) then r.tasks[x].(status := TaskDead, worker := None)
                         else r.tasks[x])
    && r'.deadLetters == r.deadLetters + (map x | x in Waiters(r, names) :: 1)
    && Apart(r') == Apart(r.(tasks := r'.tasks, deadLetters := r'.deadLetters))
  }

  lemma {:induction false} AbandonEffect(r: Run, names: seq<Name>, reason: string)
    requires !r.completed && NoDups(names) && forall x :: x in names ==> Abandonable(r, x)
    ensures AbandonEach(r, names, reason).Ok?
    ensures WaitersDie(r, AbandonEach(r, names, reason).value, names)
    ensures Tells(r, AbandonEach(r, names, reason).value, BurialStory(r, names, reason))
    decreases |names|
  {
    hide Tells, WaitersDie, DeadLetter, Waiters;
    if names == [] {
      TellsNothing(r, r);
      NobodyDies(r);
    } else {
      var x, rest := names[0], names[1..];
      assert names == [x] + rest && Abandonable(r, x);
      assert forall y :: y in rest ==> y in names && y != x;
      if r.tasks[x].status.TaskDead? {
        AbandonEffect(r, rest, reason);
        assert [] + BurialStory(r, rest, reason) == BurialStory(r, rest, reason);
        SkipDead(r, names);
        SameWaiters(r, AbandonEach(r, rest, reason).value, rest, names);
      } else {
        OneBurial(r, x, reason);
        var next := DeadLetter(r, x, 0, reason).value;
        TellsOne(r, next, x, TASK_DEAD_LETTERED(0, reason));
        AbandonEffect(next, rest, reason);
        SameBurials(r, next, rest, reason);
        TellsBoth(r, next, AbandonEach(next, rest, reason).value, [(x, TASK_DEAD_LETTERED(0, reason))],
                  BurialStory(r, rest, reason));
        OneMoreDies(r, next, AbandonEach(next, rest, reason).value, names);
      }
    }
  }

  lemma OneBurial(r: Run, x: Name, reason: string)
    requires !r.completed && x in r.tasks && r.tasks[x].status.TaskPending? && x !in r.deadLetters
    ensures DeadLetter(r, x, 0, reason).Ok?
    ensures DeadLetter(r, x, 0, reason).value ==
            Log(SetRow(r, x, r.tasks[x].(status := TaskDead, worker := None)).(deadLetters := r.deadLetters[x := 1]),
                x, TASK_DEAD_LETTERED(0, reason))
  {
  }

  lemma SkipDead(r: Run, names: seq<Name>)
    requires names != [] && names[0] in r.tasks && !r.tasks[names[0]].status.TaskPending?
    ensures Waiters(r, names) == Waiters(r, names[1..])
  {
    assert names == [names[0]] + names[1..];
  }

  lemma NobodyDies(r: Run)
    ensures WaitersDie(r, r, [])
  {
    assert Waiters(r, []) == {};
    assert (map x | x in Waiters(r, []) :: 1) == map[];
  }

  lemma SameWaiters(r: Run, r': Run, a: seq<Name>, b: seq<Name>)
    requires WaitersDie(r, r', a) && Waiters(r, a) == Waiters(r, b)
    ensures WaitersDie(r, r', b)
  {
  }

  lemma {:induction false} SameBurials(r: Run, r': Run, names: seq<Name>, reason: string)
    requires forall x :: x in names ==> (x in r.tasks <==> x in r'.tasks)
    requires forall x :: x in names && x in r.tasks && x in r'.tasks ==> r'.tasks[x] == r.tasks[x]
    ensures BurialStory(r', names, reason) == BurialStory(r, names, reason)
    decreases |names|
  {
    if names != [] {
      assert names[0] in names && forall y :: y in names[1..] ==> y in names;
      SameBurials(r, r', names[1..], reason);
    }
  }

  lemma OneMoreDies(r: Run, next: Run, r': Run, names: seq<Name>)
    requires names != [] && names[0] !in names[1..] && names[0] in r.tasks && names[0] !in r.deadLetters
    requires r.tasks[names[0]].status.TaskPending?
    requires next.tasks == r.tasks[names[0] := r.tasks[names[0]].(status := TaskDead, worker := None)]
    requires next.deadLetters == r.deadLetters[names[0] := 1]
    requires Apart(next) == Apart(r.(tasks := next.tasks, deadLetters := next.deadLetters))
    requires WaitersDie(next, r', names[1..])
    ensures WaitersDie(r, r', names)
  {
    hide Waiters;
    var x, rest := names[0], names[1..];
    FirstWaits(r, next, names);
    assert r'.deadLetters == r.deadLetters + (map y | y in Waiters(r, names) :: 1);
  }

  lemma FirstWaits(r: Run, next: Run, names: seq<Name>)
    requires names != [] && names[0] !in names[1..] && names[0] in r.tasks && r.tasks[names[0]].status.TaskPending?
    requires next.tasks == r.tasks[names[0] := r.tasks[names[0]].(status := TaskDead, worker := None)]
    ensures Waiters(r, names) == {names[0]} + Waiters(next, names[1..]) && names[0] !in Waiters(next, names[1..])
  {
    assert names == [names[0]] + names[1..];
  }

  /**
   The rows after a death: the task's own, those of everything below it that was waiting, and all
   others as they were.
   */
  ghost predicate BuriedRows(r: Run, r': Run, n: Name)
    requires n in r.tasks
  {
    && r'.tasks.Keys == r.tasks.Keys
    && forall x :: x in r.tasks ==>
         r'.tasks[x] ==
         if x == n then r.tasks[n].(status := TaskDead, worker := None, lease := None)
         else if Below(r.def, x, n) && r.tasks[x].status.TaskPending?
         then r.tasks[x].(status := TaskDead, worker := None)
         else r.tasks[x]
  }

  /** One letter for the task and one for each waiter below it. */
  function Letters(r: Run, n: Name, k: int): map<Name, int> {
    r.deadLetters[n := if k > 1 then k else 1]
    + (map x | x in Waiters(r, Descendants(r.def, n)) :: 1)
  }

  const UPSTREAM := "upstream task "

  function Upstream(n: Name): string {
    UPSTREAM + n + " did not succeed: "
  }

  /** From the moment `n` is dead to the end of the transaction that killed it. */
  lemma {:induction false} DeathEffect(r: Run, dead: Run, n: Name, k: int, told: seq<Told>)
    requires RunInv(r) && !r.completed && n in r.tasks && r.tasks[n].status.Holds() && r.tasks[n].attempt == k
    requires dead.tasks == r.tasks[n := r.tasks[n].(status := TaskDead, worker := None, lease := None)]
    requires dead.deadLetters == r.deadLetters[n := if k > 1 then k else 1]
    requires Apart(dead) == Apart(r.(tasks := dead.tasks, deadLetters := dead.deadLetters))
    requires Tells(r, dead, told)
    requires AbandonDependents(dead, n).Ok? && Settle(AbandonDependents(dead, n).value).Ok?
    ensures var r' := Settle(AbandonDependents(dead, n).value).value;
            && BuriedRows(r, r', n)
            && Concluded(r, r', Letters(r, n, k), r.artifacts)
            && Tells(r, r', told + BurialStory(r, Descendants(r.def, n), Upstream(n)) + VerdictStory(r'))
  {
    hide RunInv, Core, Tells, Settle, BurialStory, VerdictStory, Descendants, AbandonEach, Concluded, WaitersDie, Below,
         BuriedRows, Sound, Barrier, UniqueNames;
    RowFacts(r, n);
    RunFacts(r);
    var names := Descendants(r.def, n);
    DescendantsIff(r.def, n);
    forall x | x in names ensures Abandonable(dead, x) && dead.tasks[x] == r.tasks[x] { BelowIsAbandonable(r, n, x); }
    AbandonEffect(dead, names, Upstream(n));
    var gone := AbandonDependents(dead, n).value;
    SameBurials(r, dead, names, Upstream(n));
    TellsBoth(r, dead, gone, told, BurialStory(r, names, Upstream(n)));
    DeathRows(r, dead, gone, n, k);
    Conclude(r, gone, told + BurialStory(r, names, Upstream(n)));
    SameBuriedRows(r, gone, Settle(gone).value, n);
  }

  lemma SameBuriedRows(r: Run, a: Run, b: Run, n: Name)
    requires n in r.tasks && BuriedRows(r, a, n) && b.tasks == a.tasks
    ensures BuriedRows(r, b, n)
  {
    hide Below;
  }

  /** Everything below a task that holds a lease is waiting, or dead already. */
  lemma {:induction false} BelowIsAbandonable(r: Run, n: Name, x: Name)
    requires RunInv(r) && !r.completed && n in r.tasks && r.tasks[n].status.Holds()
    requires x != n && Below(r.def, x, n)
    ensures Abandonable(r, x)
  {
    hide RunInv, Core, Sound, UniqueNames, Acyclic;
    RowFacts(r, n);
    RunFacts(r);
    var p :| Connects(r.def, p, x, n);
    DepsAreNames(r.def, x, p[1]);
    BelowIsWaiting(r, p);
    if r.tasks[x].status.TaskPending? { NotBuriedYet(r, x); }
  }

  lemma DeathRows(r: Run, dead: Run, gone: Run, n: Name, k: int)
    requires n in r.tasks && UniqueNames(r.def.steps) && n !in Descendants(r.def, n)
    requires forall x :: x in Descendants(r.def, n) <==> x != n && Below(r.def, x, n)
    requires dead.tasks == r.tasks[n := r.tasks[n].(status := TaskDead, worker := None, lease := None)]
    requires dead.deadLetters == r.deadLetters[n := if k > 1 then k else 1]
    requires Apart(dead) == Apart(r.(tasks := dead.tasks, deadLetters := dead.deadLetters))
    requires WaitersDie(dead, gone, Descendants(r.def, n))
    ensures BuriedRows(r, gone, n) && gone.deadLetters == Letters(r, n, k) && gone.artifacts == r.artifacts
    ensures Apart(gone) == Apart(r.(tasks := gone.tasks, deadLetters := gone.deadLetters, artifacts := gone.artifacts))
  {
    hide Descendants, Below, UniqueNames;
    assert Waiters(dead, Descendants(r.def, n)) == Waiters(r, Descendants(r.def, n));
  }

  // ---------------------------------------------------------------- failure

  /** An error text as the journal keeps it: its first two kilobytes. */
  function Shortened(s: string): string {
    if |s| <= 2048 then s else s[..2048] + "... (truncated)"
  }

  /** A failure that is retried: the row and the two events. */
  predicate Retried(r: Run, r': Run, n: Name, k: int, error: string, retryAt: Time) {
    && n in r.tasks
    && Apart(r') == Apart(r.(tasks := r.tasks[n := r.tasks[n].(status := TaskRetrying, scheduledAt := retryAt,
                                                                worker := None, lease := None)]))
    && Tells(r, r', [(n, TASK_FAILED(k, Shortened(error), true)), (n, TASK_RETRY_SCHEDULED(k, k + 1))])
  }

  /** A death announced by these events: the task, its descendants and the run. */
  ghost predicate Died(r: Run, r': Run, n: Name, k: int, told: seq<Told>) {
    && n in r.tasks && BuriedRows(r, r', n)
    && Concluded(r, r', Letters(r, n, k), r.artifacts)
    && Tells(r, r', told + BurialStory(r, Descendants(r.def, n), Upstream(n)) + VerdictStory(r'))
  }

  /** Why a task that failed for good is given up. */
  function FinalReason(permanent: bool, error: string): string {
    (if permanent then "permanent failure" else "attempts exhausted") + ": " + Shortened(error)
  }

  lemma {:induction false} RetryEffect(r: Run, n: Name, w: WorkerId, k: int, error: string, retryAt: Time)
    requires RunInv(r) && Fail(r, n, w, k, error, false, retryAt).Ok? && k < MaxAttempts(r.def, n)
    ensures Retried(r, Fail(r, n, w, k, error, false, retryAt).value, n, k, error, retryAt)
  {
    hide RunInv, Tells, Settle, AbandonDependents, DeadLetter, MaxAttempts;
    var logged := Log(SetRow(r, n, r.tasks[n].(status := TaskFailed, lease := None)), n,
                      TASK_FAILED(k, Shortened(error), true));
    TellsTwo(r, logged, Fail(r, n, w, k, error, false, retryAt).value, n,
             TASK_FAILED(k, Shortened(error), true), TASK_RETRY_SCHEDULED(k, k + 1));
  }

  lemma {:induction false} FatalEffect(r: Run, n: Name, w: WorkerId, k: int, error: string, permanent: bool,
                                       retryAt: Time)
    requires RunInv(r) && Fail(r, n, w, k, error, permanent, retryAt).Ok?
    requires permanent || k >= MaxAttempts(r.def, n)
    ensures Died(r, Fail(r, n, w, k, error, permanent, retryAt).value, n, k,
                 [(n, TASK_FAILED(k, Shortened(error), false)),
                  (n, TASK_DEAD_LETTERED(k, FinalReason(permanent, error)))])
  {
    hide RunInv, Core, Tells, Settle, AbandonDependents, MaxAttempts, BurialStory, VerdictStory, Concluded, BuriedRows,
         Letters, Descendants, RowOk;
    RowFacts(r, n);
    FailKeeps(r, n, w, k, error, permanent, retryAt);
    FailedIsUnburied(r, n);
    var p, q := TASK_FAILED(k, Shortened(error), false), TASK_DEAD_LETTERED(k, FinalReason(permanent, error));
    var logged := Log(SetRow(r, n, r.tasks[n].(status := TaskFailed, lease := None)), n, p);
    var dead := DeadLetter(logged, n, k, FinalReason(permanent, error)).value;
    TellsTwo(r, logged, dead, n, p, q);
    DeathEffect(r, dead, n, k, [(n, p), (n, q)]);
  }

  /** A failure is retried exactly when it is not permanent and attempts are left; else the task dies. */
  lemma {:induction false} FailureEffect(r: Run, n: Name, w: WorkerId, k: int, error: string, permanent: bool,
                                         retryAt: Time)
    requires RunInv(r) && Fail(r, n, w, k, error, permanent, retryAt).Ok?
    ensures n in r.tasks && r.tasks[n].status.Holds() && r.tasks[n].worker == Some(w) && r.tasks[n].attempt == k
    ensures var r' := Fail(r, n, w, k, error, permanent, retryAt).value;
            if !permanent && k < MaxAttempts(r.def, n) then Retried(r, r', n, k, error, retryAt)
            else Died(r, r', n, k, [(n, TASK_FAILED(k, Shortened(error), false)),
                                    (n, TASK_DEAD_LETTERED(k, FinalReason(permanent, error)))])
  {
    hide RunInv, Retried, Died, Settle, AbandonDependents, DeadLetter, MaxAttempts, WillRetry;
    if !permanent && k < MaxAttempts(r.def, n) {
      RetryEffect(r, n, w, k, error, retryAt);
    } else {
      FatalEffect(r, n, w, k, error, permanent, retryAt);
    }
  }

  // ---------------------------------------------------------------- expiry

  /** An expired lease: released quietly if the run is closed, requeued if attempts are left, else fatal. */
  lemma {:induction false} ExpiryEffect(r: Run, n: Name, now: Time)
    requires RunInv(r) && n in r.tasks && r.tasks[n].status.Holds()
    ensures Expire(r, n, r.tasks[n], now).Ok?
    ensures var (r', row) := (Expire(r, n, r.tasks[n], now).value, r.tasks[n]);
            if r.completed then
              && Apart(r') == Apart(r.(tasks := r.tasks[n := row.(status := TaskDead, worker := None, lease := None)]))
              && Tells(r, r', [])
            else if row.attempt < MaxAttempts(r.def, n) then
              && Apart(r') == Apart(r.(tasks := r.tasks[n := row.(status := TaskReady, worker := None, lease := None,
                                                                  scheduledAt := now)]))
              && Tells(r, r', [(n, TASK_LEASE_EXPIRED(row.attempt)), (n, TASK_REQUEUED(row.attempt, row.attempt + 1))])
            else
              Died(r, r', n, row.attempt,
                   [(n, TASK_LEASE_EXPIRED(row.attempt)),
                    (n, TASK_DEAD_LETTERED(row.attempt, "lease expired with no attempts remaining"))])
  {
    hide RunInv, Core, Tells, Settle, AbandonDependents, MaxAttempts, BurialStory, VerdictStory, Concluded, BuriedRows,
         Letters, Descendants;
    RowFacts(r, n);
    ExpireKeeps(r, n, now);
    var row, r' := r.tasks[n], Expire(r, n, r.tasks[n], now).value;
    if r.completed {
      TellsNothing(r, r');
    } else {
      var logged := Log(r, n, TASK_LEASE_EXPIRED(row.attempt));
      if row.attempt < MaxAttempts(r.def, n) {
        TellsTwo(r, logged, r', n, TASK_LEASE_EXPIRED(row.attempt), TASK_REQUEUED(row.attempt, row.attempt + 1));
      } else {
        var reason := "lease expired with no attempts remaining";
        FailedIsUnburied(r, n);
        var dead := DeadLetterExpired(logged, n, row).value;
        TellsTwo(r, logged, dead, n, TASK_LEASE_EXPIRED(row.attempt), TASK_DEAD_LETTERED(row.attempt, reason));
        DeathEffect(r, dead, n, row.attempt,
                    [(n, TASK_LEASE_EXPIRED(row.attempt)), (n, TASK_DEAD_LETTERED(row.attempt, reason))]);
      }
    }
  }

  // ---------------------------------------------------------------- one row or none

  lemma ClaimEffect(r: Run, n: Name, w: WorkerId, until: Time)
    requires n in r.tasks && Claim(r, n, w, until).Ok?
    ensures var (r', row) := (Claim(r, n, w, until).value, r.tasks[n]);
            && Apart(r') == Apart(r.(tasks := r.tasks[n := row.(status := TaskLeased, worker := Some(w),
                                                                lease := Some(until), attempt := row.attempt + 1)]))
            && Tells(r, r', [(n, TASK_LEASED(row.attempt + 1))])
  {
    hide Find;
  }

  lemma PromotionEffect(r: Run, n: Name)
    requires n in r.tasks && Promote(r, n).Ok?
    ensures var (r', row) := (Promote(r, n).value, r.tasks[n]);
            && Apart(r') == Apart(r.(tasks := r.tasks[n := row.(status := TaskReady)]))
            && Tells(r, r', [(n, TASK_SCHEDULED(row.attempt, []))])
  {
  }

  lemma NoteEffect(r: Run, n: Name, p: Payload)
    ensures Note(r, n, p).Ok? <==> !r.completed && (p.FAULT_INJECTED? || p.SIDE_EFFECT_SKIPPED?)
    ensures Note(r, n, p).Ok? ==>
              Apart(Note(r, n, p).value) == Apart(r) && Tells(r, Note(r, n, p).value, [(n, p)])
  {
  }

  /** A cancellation: waiting tasks end, held leases expire at once, and the reason is kept. */
  lemma CancelEffect(r: Run, reason: string, now: Time)
    requires Cancel(r, reason, now).Ok?
    ensures var r' := Cancel(r, reason, now).value;
            && r'.tasks.Keys == r.tasks.Keys
            && (forall n :: n in r.tasks ==>
                  var row := r.tasks[n];
                  r'.tasks[n] == if row.status.Holds() then row.(lease := Some(now))
                                 else if row.status.TaskPending? || row.status.TaskReady? || row.status.TaskRetrying?
                                 then row.(status := TaskDead, worker := None, lease := None)
                                 else row)
            && Apart(r') == Apart(r.(tasks := r'.tasks, status := RunCancelled, completed := true))
            && Tells(r, r', [("", RUN_CANCELLED(reason))])
  {
  }

  // ---------------------------------------------------------------- creation

  /** The announcements of the steps that depend on nothing, in declaration order. */
  function RootStory(steps: seq<Step>): seq<Told>
    decreases |steps|
  {
    if steps == [] then []
    else (if steps[0].dependsOn == [] then [(steps[0].name, TASK_SCHEDULED(0, []))] else []) + RootStory(steps[1..])
  }

  lemma {:induction false} InsertStory(r: Run, steps: seq<Step>, now: Time)
    ensures Tells(r, InsertTasks(r, steps, now), RootStory(steps))
    ensures var r' := InsertTasks(r, steps, now); Apart(r') == Apart(r.(tasks := r'.tasks))
    decreases |steps|
  {
    hide Tells, MaxAttempts;
    if steps == [] {
      TellsNothing(r, r);
    } else {
      var inserted := SetRow(r, steps[0].name, InitialRow(r.def, steps[0], now));
      if steps[0].dependsOn == [] {
        var next := Log(inserted, steps[0].name, TASK_SCHEDULED(0, []));
        TellsOne(r, next, steps[0].name, TASK_SCHEDULED(0, []));
        InsertStory(next, steps[1..], now);
        TellsBoth(r, next, InsertTasks(next, steps[1..], now), [(steps[0].name, TASK_SCHEDULED(0, []))],
                  RootStory(steps[1..]));
      } else {
        TellsNothing(r, inserted);
        InsertStory(inserted, steps[1..], now);
        TellsBoth(r, inserted, InsertTasks(inserted, steps[1..], now), [], RootStory(steps[1..]));
      }
    }
  }

  /** A new run: one row per step, and a history that says how it was created and what can start. */
  lemma {:induction false} CreationEffect(d: Definition, hash: string, scenario: string, seed: int, now: Time)
    requires Sound(d) && CreateRun(d, hash, scenario, seed, now).Ok?
    ensures d.hash == hash
    ensures var r := CreateRun(d, hash, scenario, seed, now).value;
            && Apart(r) == Apart(NewRun(d).(tasks := r.tasks, status := RunQueued))
            && r.tasks.Keys == Names(d)
            && (forall i :: 0 <= i < |d.steps| ==>
                  && d.steps[i].name in r.tasks
                  && r.tasks[d.steps[i].name] ==
                     TaskRow(0, Declared(d.steps[i]), if d.steps[i].dependsOn == [] then TaskReady else TaskPending,
                             None, None, now, ""))
            && Tells(NewRun(d), r, [("", RUN_CREATED(d.name, d.version, d.hash, scenario, seed))]
                                   + RootStory(d.steps) + [("", RUN_QUEUED(|d.steps|))])
  {
    hide Tells, InsertTasks, RootStory, Acyclic, Resolved, MaxAttempts, RunInv, Find;
    CreateKeeps(d, hash, scenario, seed, now);
    var r := CreateRun(d, hash, scenario, seed, now).value;
    var p := RUN_CREATED(d.name, d.version, d.hash, scenario, seed);
    var created := Log(NewRun(d), "", p);
    var inserted := InsertTasks(created, d.steps, now);
    TellsOne(NewRun(d), created, "", p);
    InsertStory(created, d.steps, now);
    TellsBoth(NewRun(d), created, inserted, [("", p)], RootStory(d.steps));
    TellsOne(inserted, r, "", RUN_QUEUED(|d.steps|));
    TellsBoth(NewRun(d), inserted, r, [("", p)] + RootStory(d.steps), [("", RUN_QUEUED(|d.steps|))]);
    forall i | 0 <= i < |d.steps|
      ensures d.steps[i].name in r.tasks
      ensures r.tasks[d.steps[i].name] ==
              TaskRow(0, Declared(d.steps[i]), if d.steps[i].dependsOn == [] then TaskReady else TaskPending,
                      None, None, now, "")
    {
      DeclaredAttempts(d, i);
      assert d.steps[i].name in Names(d);
    }
  }
}

/**
 The engine as it runs: tables updated in place, one method per public operation, with the
 source's loops. Each method commits exactly the transaction of System.Tx it stands for.
 */
module Engine {
  import opened Common
  import opened Statuses
  import opened Events
  import opened Workflow
  import opened Tables
  import opened Invariant
  import opened System

  // ---------------------------------------------------------------- loops over one run

  /** Queue every dependent not seen before, and remember it. */
  method Visit(next: seq<Name>, queue: seq<Name>, seen: set<Name>, out: seq<Name>)
    returns (queue': seq<Name>, seen': set<Name>, out': seq<Name>)
    ensures var found := Unseen(next, seen);
            queue' == queue + found && seen' == seen + Elements(found) && out' == out + found
  {
    hide Elements, Unseen;
    ghost var found: seq<Name> := [];
    queue', seen', out' := queue, seen, out;
    ElementsSnoc([], "");
    UnseenSteps(next, 0, seen);
    for i := 0 to |next|
      invariant out' == out + found && queue' == queue + found && seen' == seen + Elements(found)
      invariant found + Unseen(next[i..], seen') == Unseen(next, seen)
    {
      UnseenSteps(next, i, seen');
      ghost var rest := Unseen(next[i + 1..], seen' + {next[i]});
      assert found + ([next[i]] + rest) == found + [next[i]] + rest;
      if next[i] !in seen' {
        seen' := seen' + {next[i]};
        out' := out' + [next[i]];
        queue' := queue' + [next[i]];
        ElementsSnoc(found, next[i]);
        found := found + [next[i]];
      }
    }
    UnseenSteps(next, |next|, seen');
    assert found == Unseen(next, seen);
  }

  lemma UnseenSteps(next: seq<Name>, i: nat, seen: set<Name>)
    requires i <= |next|
    ensures next[0..] == next && next[|next|..] == [] && Unseen([], seen) == []
    ensures i < |next| && next[i] in seen ==> Unseen(next[i..], seen) == Unseen(next[i + 1..], seen)
    ensures i < |next| && next[i] !in seen ==>
              Unseen(next[i..], seen) == [next[i]] + Unseen(next[i + 1..], seen + {next[i]})
  {
    if i < |next| { assert next[i..][0] == next[i] && next[i..][1..] == next[i + 1..]; }
  }

  lemma ElementsSnoc(found: seq<Name>, n: Name)
    ensures Elements(found + [n]) == Elements(found) + {n} && Elements([]) == {}
  {
  }

  /** The queue loop visits exactly what the forward closure names, in the same order. */
  method CollectDescendants(d: Definition, n: Name) returns (out: seq<Name>)
    ensures out == Descendants(d, n)
  {
    hide Names, Dependents, Unseen;
    var seen, queue := {n}, [n];
    out := [];
    while queue != []
      invariant out + Bfs(d, queue, seen) == Descendants(d, n)
      decreases Names(d) - seen, |queue|
    {
      DependentsAreNames(d, queue[0]);
      ghost var found := Unseen(Dependents(d, queue[0]), seen);
      UnseenIff(Dependents(d, queue[0]), seen);
      assert found == [] ==> Elements(found) == {};
      assert found != [] ==> found[0] in Names(d) - seen && found[0] in Elements(found);
      ghost var queue0, seen0, out0 := queue, seen, out;
      queue, seen, out := Visit(Dependents(d, queue[0]), queue[1..], seen, out);
      assert found == [] ==> queue == queue0[1..] && seen == seen0 && out == out0;
      assert out0 + (found + Bfs(d, queue, seen)) == out + Bfs(d, queue, seen);
    }
  }

  method UnlockAll(r: Run, completed: Name, now: Time) returns (out: Run)
    ensures out == UnlockDependents(r, completed, now)
  {
    hide Find, Dependents;
    var names, done := Dependents(r.def, completed), WithStatus(r, TaskSucceeded);
    out := r;
    for i := 0 to |names|
      invariant out.def == r.def && UnlockEach(out, names[i..], done, now) == UnlockEach(r, names, done, now)
    {
      var n, ready := names[i], true;
      assert names[i..][0] == n && names[i..][1..] == names[i + 1..];
      var deps := Deps(r.def, n);
      for k := 0 to |deps|
        invariant ready && forall l :: 0 <= l < k ==> deps[l] in done
      {
        if deps[k] !in done {
          ready := false;
          break;
        }
      }
      assert ready <==> forall m :: m in deps ==> m in done;
      if ready && n in out.tasks && out.tasks[n].status.TaskPending? {
        out := SetRow(out, n, out.tasks[n].(status := TaskReady, scheduledAt := now));
        out := Log(out, n, TASK_SCHEDULED(0, deps));
      }
    }
  }

  method AbandonAll(r: Run, failed: Name) returns (out: Outcome)
    ensures out == AbandonDependents(r, failed)
  {
    hide Descendants, DeadLetter;
    var names := CollectDescendants(r.def, failed);
    var reason := "upstream task " + failed + " did not succeed: ";
    var cur := r;
    for i := 0 to |names|
      invariant AbandonEach(cur, names[i..], reason) == AbandonEach(r, names, reason)
    {
      var n := names[i];
      assert names[i..][0] == n && names[i..][1..] == names[i + 1..];
      if n !in cur.tasks { return Err(NotFound); }
      if !cur.tasks[n].status.Terminal() {
        var buried := DeadLetter(cur, n, cur.tasks[n].attempt, reason);
        if buried.Err? { return buried; }
        cur := buried.value;
      }
    }
    return Ok(cur);
  }

  method StoreArtifacts(r: Run, n: Name, artifacts: seq<Artifact>) returns (out: Run)
    ensures out == RecordArtifacts(r, n, artifacts)
  {
    var rows := ArtifactsOf(r, n);
    for i := 0 to |artifacts|
      invariant Upsert(rows, artifacts[i..]) == Upsert(ArtifactsOf(r, n), artifacts)
    {
      assert artifacts[i..][0] == artifacts[i] && artifacts[i..][1..] == artifacts[i + 1..];
      rows := rows[artifacts[i].name := artifacts[i]];
    }
    out := r.(artifacts := r.artifacts[n := rows]);
  }

  method InsertAll(r: Run, steps: seq<Step>, now: Time) returns (out: Run)
    ensures out == InsertTasks(r, steps, now)
  {
    hide Find, Log, InitialRow;
    out := r;
    for i := 0 to |steps|
      invariant InsertTasks(out, steps[i..], now) == InsertTasks(r, steps, now)
    {
      var step := steps[i];
      assert steps[i..][0] == step && steps[i..][1..] == steps[i + 1..];
      out := SetRow(out, step.name, InitialRow(out.def, step, now));
      if step.dependsOn == [] {
        out := Log(out, step.name, TASK_SCHEDULED(0, step.dependsOn));
      }
    }
  }

  // ---------------------------------------------------------------- the statements of a cancellation

  function StoppedRow(row: TaskRow): TaskRow {
    if row.status in {TaskPending, TaskReady, TaskRetrying}
    then row.(status := TaskDead, worker := None, lease := None) else row
  }

  function ExpiredRow(row: TaskRow, now: Time): TaskRow {
    if row.status.Holds() then row.(lease := Some(now)) else row
  }

  /** The first UPDATE: tasks that have not started end, in whatever order the rows are visited. */
  method StopUnstarted(r: Run) returns (out: Run)
    ensures out == r.(tasks := map n | n in r.tasks :: StoppedRow(r.tasks[n]))
  {
    hide StoppedRow;
    ghost var all := map n | n in r.tasks :: StoppedRow(r.tasks[n]);
    var tasks, todo := r.tasks, r.tasks.Keys;
    while todo != {}
      invariant todo <= tasks.Keys == r.tasks.Keys
      invariant forall n :: n in tasks ==> tasks[n] == if n in todo then r.tasks[n] else all[n]
      decreases |todo|
    {
      var n :| n in todo;
      tasks := tasks[n := StoppedRow(tasks[n])];
      todo := todo - {n};
    }
    assert tasks == all;
    out := r.(tasks := tasks);
  }

  /** The second UPDATE: tasks in flight have their leases expired instead. */
  method ExpireHeld(r: Run, now: Time) returns (out: Run)
    ensures out == r.(tasks := map n | n in r.tasks :: ExpiredRow(r.tasks[n], now))
  {
    hide ExpiredRow;
    ghost var all := map n | n in r.tasks :: ExpiredRow(r.tasks[n], now);
    var tasks, todo := r.tasks, r.tasks.Keys;
    while todo != {}
      invariant todo <= tasks.Keys == r.tasks.Keys
      invariant forall n :: n in tasks ==> tasks[n] == if n in todo then r.tasks[n] else all[n]
      decreases |todo|
    {
      var n :| n in todo;
      tasks := tasks[n := ExpiredRow(tasks[n], now)];
      todo := todo - {n};
    }
    assert tasks == all;
    out := r.(tasks := tasks);
  }

  /** The two UPDATEs in a row are the one the transaction specifies: the first leaves held rows alone. */
  lemma StopThenExpire(r: Run, now: Time)
    ensures var stopped := r.(tasks := map n | n in r.tasks :: StoppedRow(r.tasks[n]));
            (map n | n in stopped.tasks :: ExpiredRow(stopped.tasks[n], now)) ==
            (map n | n in r.tasks :: CancelRow(r.tasks[n], now))
  {
    var stopped := r.(tasks := map n | n in r.tasks :: StoppedRow(r.tasks[n]));
    forall n | n in r.tasks ensures ExpiredRow(stopped.tasks[n], now) == CancelRow(r.tasks[n], now) {
    }
  }

  /** What recordFailure and expireLeases share once a task is dead. */
  method Bury(r: Run, n: Name) returns (out: Outcome)
    ensures out == (match AbandonDependents(r, n) case Ok(rest) => Settle(rest) case Err(e) => Err(e))
  {
    hide AbandonDependents, Settle;
    var abandoned := AbandonAll(r, n);
    if abandoned.Err? { return abandoned; }
    return Settle(abandoned.value);
  }

  // ---------------------------------------------------------------- the engine

  datatype TaskOutcome = Success(output: string, artifacts: seq<Artifact>) | Failure(error: string, permanent: bool)

  /** Transaction `t` turned `db` into `db'`, or was rolled back with `err`. */
  predicate Commits(db: Db, t: Txn, db': Db, err: Option<Refusal>) {
    match Tx(db, t)
    case Ok(after) => db' == after && err == None
    case Err(e) => db' == db && err == Some(e)
  }

  class Engine {
    var runs: map<RunId, Run>
    var workers: map<WorkerId, Worker>

    function State(): Db
      reads this
    {
      Db(runs, workers)
    }

    constructor ()
      ensures State() == EMPTY
    {
      runs, workers := map[], map[];
    }

    /** The commit of InTx: the run's rows become visible, or nothing does. */
    method Commit(id: RunId, out: Outcome) returns (err: Option<Refusal>)
      modifies this`runs
      ensures match out case Ok(r) => runs == old(runs)[id := r] && err == None
                        case Err(e) => runs == old(runs) && err == Some(e)
    {
      match out
      case Ok(r) => runs := runs[id := r]; err := None;
      case Err(e) => err := Some(e);
    }

    method CreateRun(id: RunId, def: Parsed, workflowHash: string, scenario: string, seed: int, now: Time)
      returns (err: Option<Refusal>)
      modifies this`runs
      ensures Commits(old(State()), CreateRunTx(id, def, workflowHash, scenario, seed, now), State(), err)
    {
      hide InsertTasks, Log, Sound;
      if id in runs { return Some(ConstraintViolation); }
      if def.hash != workflowHash { return Some(DefinitionMismatch); }
      var r := Log(NewRun(def), "", RUN_CREATED(def.name, def.version, def.hash, scenario, seed));
      r := InsertAll(r, def.steps, now);
      r := Log(r.(status := RunQueued), "", RUN_QUEUED(|def.steps|));
      err := Commit(id, Ok(r));
    }

    /** `rows` is what the locking SELECT returned. */
    method ClaimTasks(w: WorkerId, rows: seq<Pick>, now: Time, leaseUntil: Time) returns (err: Option<Refusal>)
      requires IsDistinct(rows)
      requires forall p :: p in rows ==> Exists(State(), p) && Claimable(runs[p.0], p.1, now)
      modifies this`runs
      ensures Commits(old(State()), ClaimTx(w, rows, now, leaseUntil), State(), err)
    {
      hide Claim, IsDistinct, Claimable;
      if rows != [] && w !in workers { return Some(ConstraintViolation); }
      var db := State();
      for i := 0 to |rows|
        invariant State() == old(State())
        invariant ClaimEach(db, rows[i..], w, leaseUntil) == ClaimEach(old(State()), rows, w, leaseUntil)
        invariant db.workers == workers
      {
        assert rows[i..][0] == rows[i] && rows[i..][1..] == rows[i + 1..];
        var (id, n) := rows[i];
        if !Exists(db, rows[i]) { return Some(NotSelectable); }
        var next := OnRun(db, id, Claim(db.runs[id], n, w, leaseUntil));
        if next.Err? { return Some(next.error); }
        db := next.value;
      }
      runs := db.runs;
      err := None;
    }

    method StartTask(id: RunId, n: Name, w: WorkerId, k: int, handler: string) returns (err: Option<Refusal>)
      modifies this`runs
      ensures Commits(old(State()), StartTx(id, n, w, k, handler), State(), err)
    {
      if id !in runs { return Some(LeaseLost); }
      var r := runs[id];
      if !HeldBy(r, n, {TaskLeased}, w, k) { return Some(LeaseLost); }
      if (n, k) in r.attempts { return Some(ConcurrentAttempt); }
      r := SetRow(r, n, r.tasks[n].(status := TaskRunning));
      r := r.(attempts := r.attempts + {(n, k)});
      var logged := Append(r, n, TASK_STARTED(k, handler));
      if logged.Err? { return Some(logged.error); }
      err := Commit(id, MarkRunStarted(logged.value));
    }

    /** Either recordSuccess or recordFailure; `retryAt` is now plus the delay the policy drew. */
    method CompleteTask(id: RunId, n: Name, w: WorkerId, k: int, outcome: TaskOutcome, now: Time, retryAt: Time)
      returns (err: Option<Refusal>)
      modifies this`runs
      ensures outcome.Success? ==>
                Commits(old(State()), SucceedTx(id, n, w, k, outcome.output, outcome.artifacts, now), State(), err)
      ensures outcome.Failure? ==>
                Commits(old(State()), FailTx(id, n, w, k, outcome.error, outcome.permanent, retryAt), State(), err)
    {
      hide Succeed, Fail;
      if id !in runs { return Some(NotFound); }
      var out: Outcome;
      match outcome
      case Success(output, artifacts) =>
        out := RecordSuccess(runs[id], n, w, k, output, artifacts, now);
        err := Commit(id, out);
      case Failure(error, permanent) =>
        out := RecordFailure(runs[id], n, w, k, error, permanent, retryAt);
        err := Commit(id, out);
    }

    /**
     `rows` is what the locking SELECT returned. Every expired lease is either requeued or ends
     its task; a sweep that fails reports nothing done.
     */
    method ExpireLeases(rows: seq<Pick>, now: Time)
      returns (err: Option<Refusal>, expired: nat, requeued: nat, dead: nat)
      requires IsDistinct(rows)
      requires forall p :: p in rows ==> Exists(State(), p) && Expired(runs[p.0], p.1, now)
      modifies this`runs
      ensures Commits(old(State()), ExpireTx(rows, now), State(), err)
      ensures expired == requeued + dead == if err.None? then |rows| else 0
    {
      hide Expire, IsDistinct, Expired;
      expired, requeued, dead := 0, 0, 0;
      var db, snap := State(), State();
      for i := 0 to |rows|
        invariant State() == old(State()) == snap
        invariant ExpireEach(db, rows[i..], snap, now) == ExpireEach(snap, rows, snap, now)
        invariant db.workers == workers && expired == requeued + dead == i
      {
        assert rows[i..][0] == rows[i] && rows[i..][1..] == rows[i + 1..];
        assert rows[i] in rows;
        var (id, n) := rows[i];
        if !Exists(db, rows[i]) { return Some(NotSelectable), 0, 0, 0; }
        expired := expired + 1;
        var out, again := ExpireOne(db.runs[id], n, RowAt(snap, rows[i]), now);
        if out.Err? { return Some(out.error), 0, 0, 0; }
        if again { requeued := requeued + 1; } else { dead := dead + 1; }
        db := db.(runs := db.runs[id := out.value]);
      }
      runs := db.runs;
      err := None;
    }

    method PromoteDueRetries(rows: seq<Pick>, now: Time) returns (err: Option<Refusal>)
      requires IsDistinct(rows)
      requires forall p :: p in rows ==> Exists(State(), p) && Due(runs[p.0], p.1, now)
      modifies this`runs
      ensures Commits(old(State()), PromoteTx(rows, now), State(), err)
    {
      hide Promote, IsDistinct, Due;
      var db := State();
      for i := 0 to |rows|
        invariant State() == old(State()) && db.workers == workers
        invariant PromoteEach(db, rows[i..]) == PromoteEach(old(State()), rows)
      {
        assert rows[i..][0] == rows[i] && rows[i..][1..] == rows[i + 1..];
        var (id, n) := rows[i];
        if !Exists(db, rows[i]) { return Some(NotSelectable); }
        var next := OnRun(db, id, Promote(db.runs[id], n));
        if next.Err? { return Some(next.error); }
        db := next.value;
      }
      runs := db.runs;
      err := None;
    }

    method CancelRun(id: RunId, reason: string, now: Time) returns (err: Option<Refusal>)
      modifies this`runs
      ensures Commits(old(State()), CancelTx(id, reason, now), State(), err)
    {
      hide CancelRow;
      if id !in runs { return Some(NotFound); }
      var r := runs[id];
      if r.status.Terminal() { return Some(RunFinished); }
      if !r.status.CanTransition(RunCancelled) { return Some(IllegalTransition); }
      r := StopUnstarted(r);
      r := ExpireHeld(r, now);
      StopThenExpire(runs[id], now);
      var logged := Append(r, "", RUN_CANCELLED(reason));
      if logged.Err? { return Some(logged.error); }
      err := Commit(id, Ok(logged.value.(status := RunCancelled, completed := true)));
    }

    /** A transaction that only appends: a fault that is about to fire, or an effect not repeated. */
    method RecordNote(id: RunId, n: Name, payload: Payload) returns (err: Option<Refusal>)
      modifies this`runs
      ensures Commits(old(State()), NoteTx(id, n, payload), State(), err)
    {
      hide Note;
      if id !in runs { return Some(NotFound); }
      err := Commit(id, Note(runs[id], n, payload));
    }

    /** WORKER_LOST goes to every affected run; the order in which they are visited is immaterial. */
    method Announce(w: WorkerId, missed: int, released: int)
      modifies this`runs
      ensures State() == AnnounceWorkerLost(old(State()), w, missed, released)
    {
      hide AnnounceLost;
      ghost var all := AnnounceWorkerLost(State(), w, missed, released).runs;
      var todo := runs.Keys;
      while todo != {}
        invariant todo <= runs.Keys == all.Keys
        invariant forall id :: id in todo ==> all[id] == AnnounceLost(runs[id], w, missed, released)
        invariant forall id :: id in runs && id !in todo ==> runs[id] == all[id]
        decreases |todo|
      {
        var id :| id in todo;
        runs := runs[id := AnnounceLost(runs[id], w, missed, released)];
        todo := todo - {id};
      }
      assert runs == all;
    }

    /** `lost` is what the second UPDATE returned. */
    method SweepWorkers(now: Time, suspectAfter: Time, lostAfter: Time, lost: seq<WorkerId>, missed: int)
      requires Lists(lost, SilentWorkers(State(), lostAfter))
      modifies this
      ensures Commits(old(State()), SweepTx(now, suspectAfter, lostAfter, lost, missed), State(), None)
    {
      hide Lists, SilentWorkers, MoveLeases, AnnounceLost, SweptWorker, Released;
      workers := map w | w in workers :: SweptWorker(workers[w], suspectAfter, lostAfter);
      ghost var swept := State();
      for i := 0 to |lost|
        invariant workers == swept.workers
        invariant LoseEach(State(), lost[i..], now, missed) == LoseEach(swept, lost, now, missed)
      {
        assert lost[i..][0] == lost[i] && lost[i..][1..] == lost[i + 1..];
        var released := |Released(State(), lost[i])|;
        runs := ReleaseLeases(State(), lost[i], now).runs;
        Announce(lost[i], missed, released);
      }
    }

    method RetireWorker(w: WorkerId, now: Time, missed: int)
      modifies this
      ensures Commits(old(State()), RetireTx(w, now, missed), State(), None)
    {
      hide MoveLeases, AnnounceLost, Released;
      if w !in workers || !Alive(workers[w]) { return; }
      var released := Released(State(), w);
      workers := workers[w := workers[w].(status := WorkerStopped)];
      runs := ReleaseLeases(State(), w, now).runs;
      if released != {} { Announce(w, missed, |released|); }
    }

    /** Returns the tasks actually renewed: exactly those asked for that `w` still holds. */
    method RenewLease(w: WorkerId, tasks: set<Pick>, deadline: Time) returns (renewed: set<Pick>)
      modifies this`runs
      ensures Commits(old(State()), RenewTx(w, tasks, deadline), State(), None)
      ensures renewed == tasks * Released(old(State()), w)
      ensures forall p :: p in renewed ==> Exists(State(), p) && RowAt(State(), p).lease == Some(deadline)
    {
      renewed := tasks * Released(State(), w);
      runs := Renew(State(), w, tasks, deadline).runs;
    }

    method RegisterWorker(w: WorkerId, now: Time) returns (err: Option<Refusal>)
      modifies this`workers
      ensures Commits(old(State()), RegisterTx(w, now), State(), err)
    {
      if w in workers { return Some(ConstraintViolation); }
      workers := workers[w := Worker(WorkerHealthy, now)];
      err := None;
    }

    method Heartbeat(w: WorkerId, now: Time) returns (err: Option<Refusal>)
      modifies this`workers
      ensures Commits(old(State()), HeartbeatTx(w, now), State(), err)
    {
      if w !in workers || !Alive(workers[w]) { return Some(NotFound); }
      workers := workers[w := Worker(WorkerHealthy, now)];
      err := None;
    }
  }

  // ---------------------------------------------------------------- one task's outcome

  method RecordSuccess(r: Run, n: Name, w: WorkerId, k: int, output: string, artifacts: seq<Artifact>, now: Time)
    returns (out: Outcome)
    ensures out == Succeed(r, n, w, k, output, artifacts, now)
  {
    hide RecordArtifacts, UnlockDependents, Settle, Storable;
    if !HeldBy(r, n, {TaskRunning}, w, k) { return Err(LeaseLost); }
    if !Storable(artifacts) { return Err(ConstraintViolation); }
    var cur := SetRow(r, n, r.tasks[n].(status := TaskSucceeded, lease := None, output := output));
    cur := StoreArtifacts(cur, n, artifacts);
    var logged := Append(cur, n, TASK_SUCCEEDED(k, output, artifacts));
    if logged.Err? { return logged; }
    cur := UnlockAll(logged.value, n, now);
    return Settle(cur);
  }

  method RecordFailure(r: Run, n: Name, w: WorkerId, k: int, error: string, permanent: bool, retryAt: Time)
    returns (out: Outcome)
    ensures out == Fail(r, n, w, k, error, permanent, retryAt)
  {
    hide AbandonDependents, Settle, DeadLetter, MaxAttempts;
    if !HeldBy(r, n, {TaskRunning, TaskLeased}, w, k) { return Err(LeaseLost); }
    var willRetry := WillRetry(r.def, n, k, permanent);
    var cur := SetRow(r, n, r.tasks[n].(status := TaskFailed, lease := None));
    var logged := Append(cur, n, TASK_FAILED(k, TruncateError(error), willRetry));
    if logged.Err? { return logged; }
    cur := logged.value;
    if willRetry {
      cur := SetRow(cur, n, cur.tasks[n].(status := TaskRetrying, scheduledAt := retryAt, worker := None));
      return Append(cur, n, TASK_RETRY_SCHEDULED(k, k + 1));
    }
    var reason := if permanent then "permanent failure" else "attempts exhausted";
    var buried := DeadLetter(cur, n, k, reason + ": " + TruncateError(error));
    if buried.Err? { return buried; }
    out := Bury(buried.value, n);
  }

  method ExpireOne(r: Run, n: Name, seen: TaskRow, now: Time) returns (out: Outcome, requeued: bool)
    requires n in r.tasks
    ensures out == Expire(r, n, seen, now)
    ensures requeued <==> !r.status.Terminal() && seen.attempt < MaxAttempts(r.def, n)
  {
    hide AbandonDependents, Settle, Requeue, DeadLetterExpired, ReleaseAbandoned, MaxAttempts;
    requeued := false;
    if r.status.Terminal() {
      out := Ok(ReleaseAbandoned(r, n));
      return;
    }
    requeued := seen.attempt < MaxAttempts(r.def, n);
    out := Append(r, n, TASK_LEASE_EXPIRED(seen.attempt));
    if out.Err? { return; }
    if requeued {
      out := Requeue(out.value, n, seen, now);
      return;
    }
    out := DeadLetterExpired(out.value, n, seen);
    if out.Err? { return; }
    out := Bury(out.value, n);
  }

  /** What every method above inherits: the invariant of System survives whatever it commits. */
  lemma {:induction false} CommitsKeepInv(db: Db, t: Txn, db': Db, err: Option<Refusal>)
    requires Inv(db) && Commits(db, t, db', err)
    ensures Inv(db') && DbEvolves(db, db')
  {
    hide Inv, DbEvolves, Tx;
    ApplyGood(db, t);
  }
}

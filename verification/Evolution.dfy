/**
 How a run's rows may change from one state to any later one. `Evolves` is reflexive and
 transitive and every transaction respects it, so it holds across any schedule.
 */
module Evolution {
  import opened Common
  import opened Statuses
  import opened Events
  import opened Workflow
  import opened Tables

  function Rank(status: TaskStatus): int {
    match status
    case TaskPending => 6
    case TaskLeased => 5
    case TaskRunning => 4
    case TaskFailed => 3
    case TaskRetrying => 2
    case TaskReady => 1
    case _ => 0
  }

  /** What is left of a task: attempts it may still consume, then its place within one. */
  function Weight(row: TaskRow): int {
    5 * (row.maxAttempts - row.attempt) + Rank(row.status)
  }

  predicate RowEvolves(row: TaskRow, row': TaskRow) {
    && row'.maxAttempts == row.maxAttempts
    && row'.attempt >= row.attempt
    && Weight(row') <= Weight(row)
    && (row'.status != row.status ==> Weight(row') < Weight(row))
    && (row.status.Terminal() ==> row' == row.(worker := row'.worker))
    && (row'.attempt == row.attempt && !row.status.Holds() ==> !row'.status.Holds())
    && (Queued(row) && row'.attempt == row.attempt && !row'.status.Terminal() ==>
          Queued(row') && row'.scheduledAt == row.scheduledAt)
  }

  /** Waiting for its time or for a worker. */
  predicate Queued(row: TaskRow) {
    row.status.TaskRetrying? || row.status.TaskReady?
  }

  /** After the verdict, a row stays as it is or, if held, dies. */
  predicate RowFrozen(row: TaskRow, row': TaskRow) {
    && row'.attempt == row.attempt
    && (row'.status == row.status || (row.status.Holds() && row'.status.TaskDead?))
  }

  predicate Evolves(r: Run, r': Run) {
    && r'.def == r.def && r'.tasks.Keys == r.tasks.Keys
    && r.journal <= r'.journal && r.attempts <= r'.attempts
    && (forall n :: n in r.tasks ==> RowEvolves(r.tasks[n], r'.tasks[n]))
    && (r.completed ==>
          && r'.completed && r'.status == r.status && r'.journal == r.journal && r'.eventSeq == r.eventSeq
          && r'.attempts == r.attempts && r'.deadLetters == r.deadLetters && r'.artifacts == r.artifacts
          && forall n :: n in r.tasks ==> RowFrozen(r.tasks[n], r'.tasks[n]))
  }

  lemma EvolvesReflexive(r: Run)
    ensures Evolves(r, r)
  {
  }

  lemma EvolvesTransitive(a: Run, b: Run, c: Run)
    requires Evolves(a, b) && Evolves(b, c)
    ensures Evolves(a, c)
  {
    forall n | n in a.tasks ensures RowEvolves(a.tasks[n], c.tasks[n]) {
      assert RowEvolves(a.tasks[n], b.tasks[n]) && RowEvolves(b.tasks[n], c.tasks[n]);
    }
    if a.completed {
      forall n | n in a.tasks ensures RowFrozen(a.tasks[n], c.tasks[n]) {
        assert RowFrozen(a.tasks[n], b.tasks[n]) && RowFrozen(b.tasks[n], c.tasks[n]);
        assert RowEvolves(b.tasks[n], c.tasks[n]);
      }
    }
  }

  /** One row changes and events are appended, in an open run. */
  lemma OneRowEvolves(r: Run, r': Run, n: Name)
    requires !r.completed && n in r.tasks && n in r'.tasks && RowEvolves(r.tasks[n], r'.tasks[n])
    requires r'.def == r.def && r'.tasks == r.tasks[n := r'.tasks[n]]
    requires r.journal <= r'.journal && r.attempts <= r'.attempts
    ensures Evolves(r, r')
  {
  }

  // ---------------------------------------------------------------- each transaction

  lemma ClaimEvolves(r: Run, n: Name, w: WorkerId, until: Time)
    requires n in r.tasks && r.tasks[n].status.TaskReady? && Claim(r, n, w, until).Ok?
    ensures Evolves(r, Claim(r, n, w, until).value)
  {
    OneRowEvolves(r, Claim(r, n, w, until).value, n);
  }

  lemma StartEvolves(r: Run, n: Name, w: WorkerId, k: int, handler: string)
    requires Start(r, n, w, k, handler).Ok?
    ensures Evolves(r, Start(r, n, w, k, handler).value)
  {
    OneRowEvolves(r, Start(r, n, w, k, handler).value, n);
  }

  lemma SettleEvolves(r: Run)
    requires !r.completed && Settle(r).Ok?
    ensures Evolves(r, Settle(r).value) && Settle(r).value.tasks == r.tasks
  {
  }

  lemma {:induction false} UnlockEvolves(r: Run, names: seq<Name>, done: set<Name>, now: Time)
    requires !r.completed
    ensures Evolves(r, UnlockEach(r, names, done, now)) && !UnlockEach(r, names, done, now).completed
    decreases |names|
  {
    hide Evolves;
    if names == [] {
      EvolvesReflexive(r);
    } else if !Unlockable(r, names[0], done) {
      UnlockEvolves(r, names[1..], done, now);
    } else {
      var n := names[0];
      var ready := SetRow(r, n, r.tasks[n].(status := TaskReady, scheduledAt := now));
      var next := Log(ready, n, TASK_SCHEDULED(0, Deps(r.def, n)));
      OneRowEvolves(r, next, n);
      UnlockEvolves(next, names[1..], done, now);
      EvolvesTransitive(r, next, UnlockEach(r, names, done, now));
    }
  }

  lemma DeadLetterEvolves(r: Run, n: Name, attempt: int, reason: string)
    requires n in r.tasks && DeadLetter(r, n, attempt, reason).Ok?
    ensures Evolves(r, DeadLetter(r, n, attempt, reason).value)
    ensures !DeadLetter(r, n, attempt, reason).value.completed
  {
    OneRowEvolves(r, DeadLetter(r, n, attempt, reason).value, n);
  }

  lemma {:induction false} AbandonEvolves(r: Run, names: seq<Name>, reason: string)
    requires !r.completed && AbandonEach(r, names, reason).Ok?
    ensures Evolves(r, AbandonEach(r, names, reason).value) && !AbandonEach(r, names, reason).value.completed
    decreases |names|
  {
    hide Evolves, DeadLetter;
    if names == [] {
      EvolvesReflexive(r);
    } else if r.tasks[names[0]].status.Terminal() {
      AbandonEvolves(r, names[1..], reason);
    } else {
      DeadLetterEvolves(r, names[0], r.tasks[names[0]].attempt, reason);
      var next := DeadLetter(r, names[0], r.tasks[names[0]].attempt, reason).value;
      AbandonEvolves(next, names[1..], reason);
      EvolvesTransitive(r, next, AbandonEach(r, names, reason).value);
    }
  }

  lemma SucceedEvolves(r: Run, n: Name, w: WorkerId, k: int, output: string, artifacts: seq<Artifact>, now: Time)
    requires Succeed(r, n, w, k, output, artifacts, now).Ok?
    ensures Evolves(r, Succeed(r, n, w, k, output, artifacts, now).value)
  {
    hide Evolves, Settle, UnlockEach, Upsert;
    var done := SetRow(r, n, r.tasks[n].(status := TaskSucceeded, lease := None, output := output));
    var logged := Log(RecordArtifacts(done, n, artifacts), n, TASK_SUCCEEDED(k, output, artifacts));
    OneRowEvolves(r, logged, n);
    var unlocked := UnlockDependents(logged, n, now);
    UnlockEvolves(logged, Dependents(logged.def, n), WithStatus(logged, TaskSucceeded), now);
    SettleEvolves(unlocked);
    EvolvesTransitive(r, logged, unlocked);
    EvolvesTransitive(r, unlocked, Settle(unlocked).value);
  }

  /** From a task's death to the end of its transaction. */
  lemma DeathEvolves(r: Run, dead: Run, n: Name)
    requires Evolves(r, dead) && !dead.completed
    requires AbandonDependents(dead, n).Ok? && Settle(AbandonDependents(dead, n).value).Ok?
    ensures Evolves(r, Settle(AbandonDependents(dead, n).value).value)
  {
    hide Evolves, Settle, AbandonEach, Bfs;
    var abandoned := AbandonDependents(dead, n).value;
    AbandonEvolves(dead, Descendants(dead.def, n), "upstream task " + n + " did not succeed: ");
    SettleEvolves(abandoned);
    EvolvesTransitive(r, dead, abandoned);
    EvolvesTransitive(r, abandoned, Settle(abandoned).value);
  }

  lemma FailEvolves(r: Run, n: Name, w: WorkerId, k: int, error: string, permanent: bool, retryAt: Time)
    requires Fail(r, n, w, k, error, permanent, retryAt).Ok?
    ensures Evolves(r, Fail(r, n, w, k, error, permanent, retryAt).value)
  {
    hide Evolves, Settle, AbandonDependents, DeadLetter, MaxAttempts, TruncateError;
    var willRetry := WillRetry(r.def, n, k, permanent);
    var failed := SetRow(r, n, r.tasks[n].(status := TaskFailed, lease := None));
    var logged := Log(failed, n, TASK_FAILED(k, TruncateError(error), willRetry));
    OneRowEvolves(r, logged, n);
    if willRetry {
      var out := Fail(r, n, w, k, error, permanent, retryAt).value;
      OneRowEvolves(logged, out, n);
      EvolvesTransitive(r, logged, out);
    } else {
      var reason := (if permanent then "permanent failure" else "attempts exhausted") + ": " + TruncateError(error);
      DeadLetterEvolves(logged, n, k, reason);
      EvolvesTransitive(r, logged, DeadLetter(logged, n, k, reason).value);
      DeathEvolves(r, DeadLetter(logged, n, k, reason).value, n);
    }
  }

  lemma ReleaseEvolves(r: Run, n: Name)
    requires n in r.tasks
    ensures Evolves(r, ReleaseAbandoned(r, n))
  {
  }

  lemma ExpireEvolves(r: Run, n: Name, now: Time)
    requires n in r.tasks && r.tasks[n].status.Holds() && Expire(r, n, r.tasks[n], now).Ok?
    ensures Evolves(r, Expire(r, n, r.tasks[n], now).value)
  {
    hide Evolves, Settle, AbandonDependents, MaxAttempts;
    var seen := r.tasks[n];
    if r.status.Terminal() {
      ReleaseEvolves(r, n);
    } else {
      var logged := Log(r, n, TASK_LEASE_EXPIRED(seen.attempt));
      if seen.attempt < MaxAttempts(r.def, n) {
        OneRowEvolves(r, Requeue(logged, n, seen, now).value, n);
      } else {
        OneRowEvolves(r, DeadLetterExpired(logged, n, seen).value, n);
        DeathEvolves(r, DeadLetterExpired(logged, n, seen).value, n);
      }
    }
  }

  lemma PromoteEvolves(r: Run, n: Name)
    requires n in r.tasks && r.tasks[n].status.TaskRetrying? && Promote(r, n).Ok?
    ensures Evolves(r, Promote(r, n).value)
  {
    OneRowEvolves(r, Promote(r, n).value, n);
  }

  lemma CancelEvolves(r: Run, reason: string, now: Time)
    requires Cancel(r, reason, now).Ok?
    ensures Evolves(r, Cancel(r, reason, now).value)
  {
  }

  lemma MoveLeasesEvolves(r: Run, names: set<Name>, w: WorkerId, deadline: Time)
    ensures Evolves(r, MoveLeases(r, names, w, deadline))
  {
  }

  lemma AnnounceEvolves(r: Run, w: WorkerId, missed: int, released: int)
    ensures Evolves(r, AnnounceLost(r, w, missed, released))
  {
  }

  lemma NoteEvolves(r: Run, n: Name, p: Payload)
    requires Note(r, n, p).Ok?
    ensures Evolves(r, Note(r, n, p).value)
  {
  }
}

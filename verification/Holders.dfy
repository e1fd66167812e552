/**
 Which workers hold tasks. "A gone worker holds no task" is not an invariant of the engine; this
 module says exactly which transactions break it, one at a time and over whole schedules.
 */
module Holders {
  import opened Common
  import opened Statuses
  import opened Events
  import opened Workflow
  import opened Tables
  import opened Invariant
  import opened Recovery
  import opened System
  import opened Guarantees
  import opened Futures

  // ---------------------------------------------------------------- who may come to hold a task

  /** Every task held in `r'` was held in `r` by the same worker, or is held by one of `extra`. */
  predicate HeldFrom(r: Run, r': Run, extra: set<WorkerId>) {
    forall n :: n in r'.tasks && r'.tasks[n].status.Holds() ==>
      || (r'.tasks[n].worker.Some? && r'.tasks[n].worker.value in extra)
      || (n in r.tasks && r.tasks[n].status.Holds() && r'.tasks[n].worker == r.tasks[n].worker)
  }

  predicate NoneHeld(r: Run) {
    forall n :: n in r.tasks ==> !r.tasks[n].status.Holds()
  }

  lemma HeldFromSame(r: Run, r': Run)
    requires r'.tasks == r.tasks
    ensures HeldFrom(r, r', {})
  {
  }

  lemma HeldFromTransitive(a: Run, b: Run, c: Run, extra: set<WorkerId>)
    requires HeldFrom(a, b, extra) && HeldFrom(b, c, extra)
    ensures HeldFrom(a, c, extra)
  {
  }

  /** One row changes, and not into somebody else's hands. */
  lemma OneRowHeldFrom(r: Run, r': Run, n: Name)
    requires n in r.tasks && n in r'.tasks && r'.tasks == r.tasks[n := r'.tasks[n]]
    requires r'.tasks[n].status.Holds() ==> r.tasks[n].status.Holds() && r'.tasks[n].worker == r.tasks[n].worker
    ensures HeldFrom(r, r', {})
  {
  }

  lemma ClaimHolders(r: Run, n: Name, w: WorkerId, until: Time)
    requires n in r.tasks && Claim(r, n, w, until).Ok?
    ensures HeldFrom(r, Claim(r, n, w, until).value, {w})
  {
    hide Find;
  }

  lemma StartHolders(r: Run, n: Name, w: WorkerId, k: int, handler: string)
    requires Start(r, n, w, k, handler).Ok?
    ensures HeldFrom(r, Start(r, n, w, k, handler).value, {})
  {
    OneRowHeldFrom(r, Start(r, n, w, k, handler).value, n);
  }

  lemma {:induction false} UnlockHolders(r: Run, names: seq<Name>, done: set<Name>, now: Time)
    ensures HeldFrom(r, UnlockEach(r, names, done, now), {})
    decreases |names|
  {
    hide HeldFrom;
    if names == [] {
      HeldFromSame(r, r);
    } else if !Unlockable(r, names[0], done) {
      UnlockHolders(r, names[1..], done, now);
    } else {
      var n := names[0];
      var ready := SetRow(r, n, r.tasks[n].(status := TaskReady, scheduledAt := now));
      var next := Log(ready, n, TASK_SCHEDULED(0, Deps(r.def, n)));
      OneRowHeldFrom(r, next, n);
      UnlockHolders(next, names[1..], done, now);
      HeldFromTransitive(r, next, UnlockEach(r, names, done, now), {});
    }
  }

  lemma {:induction false} AbandonHolders(r: Run, names: seq<Name>, reason: string)
    requires AbandonEach(r, names, reason).Ok?
    ensures HeldFrom(r, AbandonEach(r, names, reason).value, {})
    decreases |names|
  {
    hide HeldFrom;
    if names == [] {
      HeldFromSame(r, r);
    } else if r.tasks[names[0]].status.Terminal() {
      AbandonHolders(r, names[1..], reason);
    } else {
      var next := DeadLetter(r, names[0], r.tasks[names[0]].attempt, reason).value;
      OneRowHeldFrom(r, next, names[0]);
      AbandonHolders(next, names[1..], reason);
      HeldFromTransitive(r, next, AbandonEach(r, names, reason).value, {});
    }
  }

  lemma SettleKeepsTasks(r: Run)
    requires Settle(r).Ok?
    ensures Settle(r).value.tasks == r.tasks
  {
    hide ShortfallDetail;
  }

  lemma SucceedHolders(r: Run, n: Name, w: WorkerId, k: int, output: string, artifacts: seq<Artifact>, now: Time)
    requires Succeed(r, n, w, k, output, artifacts, now).Ok?
    ensures HeldFrom(r, Succeed(r, n, w, k, output, artifacts, now).value, {})
  {
    hide HeldFrom, UnlockEach, Settle, Upsert, Storable, Dependents;
    var done := SetRow(r, n, r.tasks[n].(status := TaskSucceeded, lease := None, output := output));
    var logged := Append(RecordArtifacts(done, n, artifacts), n, TASK_SUCCEEDED(k, output, artifacts)).value;
    OneRowHeldFrom(r, logged, n);
    UnlockHolders(logged, Dependents(r.def, n), WithStatus(logged, TaskSucceeded), now);
    var unlocked := UnlockDependents(logged, n, now);
    SettleKeepsTasks(unlocked);
    HeldFromTransitive(r, logged, unlocked, {});
    HeldFromSame(unlocked, Settle(unlocked).value);
    HeldFromTransitive(r, unlocked, Settle(unlocked).value, {});
  }

  /** Burying a task's descendants and settling puts nothing into anybody's hands. */
  lemma BurialHolders(r: Run, buried: Run, n: Name)
    requires HeldFrom(r, buried, {}) && AbandonDependents(buried, n).Ok?
    requires Settle(AbandonDependents(buried, n).value).Ok?
    ensures HeldFrom(r, Settle(AbandonDependents(buried, n).value).value, {})
  {
    hide HeldFrom, AbandonEach, Settle, Descendants;
    var abandoned := AbandonDependents(buried, n).value;
    AbandonHolders(buried, Descendants(buried.def, n), "upstream task " + n + " did not succeed: ");
    HeldFromTransitive(r, buried, abandoned, {});
    SettleKeepsTasks(abandoned);
    HeldFromSame(abandoned, Settle(abandoned).value);
    HeldFromTransitive(r, abandoned, Settle(abandoned).value, {});
  }

  lemma FailHolders(r: Run, n: Name, w: WorkerId, k: int, error: string, permanent: bool, retryAt: Time)
    requires Fail(r, n, w, k, error, permanent, retryAt).Ok?
    ensures HeldFrom(r, Fail(r, n, w, k, error, permanent, retryAt).value, {})
  {
    hide HeldFrom, AbandonDependents, Settle, WillRetry, TruncateError;
    var willRetry := WillRetry(r.def, n, k, permanent);
    var failed := SetRow(r, n, r.tasks[n].(status := TaskFailed, lease := None));
    var logged := Append(failed, n, TASK_FAILED(k, TruncateError(error), willRetry)).value;
    if willRetry {
      OneRowHeldFrom(r, Fail(r, n, w, k, error, permanent, retryAt).value, n);
    } else {
      var reason := if permanent then "permanent failure" else "attempts exhausted";
      var buried := DeadLetter(logged, n, k, reason + ": " + TruncateError(error)).value;
      OneRowHeldFrom(r, buried, n);
      BurialHolders(r, buried, n);
    }
  }

  lemma ExpireHolders(r: Run, n: Name, seen: TaskRow, now: Time)
    requires n in r.tasks && Expire(r, n, seen, now).Ok?
    ensures HeldFrom(r, Expire(r, n, seen, now).value, {})
  {
    hide HeldFrom, AbandonDependents, Settle, MaxAttempts;
    if r.status.Terminal() || seen.attempt < MaxAttempts(r.def, n) {
      OneRowHeldFrom(r, Expire(r, n, seen, now).value, n);
    } else {
      var logged := Append(r, n, TASK_LEASE_EXPIRED(seen.attempt)).value;
      var buried := DeadLetterExpired(logged, n, seen).value;
      OneRowHeldFrom(r, buried, n);
      BurialHolders(r, buried, n);
    }
  }

  lemma {:induction false} InsertHoldsNothing(r: Run, steps: seq<Step>, now: Time)
    requires NoneHeld(r)
    ensures NoneHeld(InsertTasks(r, steps, now))
    decreases |steps|
  {
    hide MaxAttempts;
    if steps != [] {
      var inserted := SetRow(r, steps[0].name, InitialRow(r.def, steps[0], now));
      var next := if steps[0].dependsOn == []
        then Log(inserted, steps[0].name, TASK_SCHEDULED(0, steps[0].dependsOn)) else inserted;
      InsertHoldsNothing(next, steps[1..], now);
    }
  }

  // ---------------------------------------------------------------- whole databases

  /** The same of every run; a run that is new holds nothing. */
  predicate DbHeldFrom(db: Db, db': Db, extra: set<WorkerId>) {
    forall id :: id in db'.runs ==>
      if id in db.runs then HeldFrom(db.runs[id], db'.runs[id], extra) else NoneHeld(db'.runs[id])
  }

  lemma OneRunHeldFrom(db: Db, id: RunId, r: Run, extra: set<WorkerId>)
    requires if id in db.runs then HeldFrom(db.runs[id], r, extra) else NoneHeld(r)
    ensures DbHeldFrom(db, db.(runs := db.runs[id := r]), extra)
  {
  }

  lemma DbHeldFromTransitive(a: Db, b: Db, c: Db, extra: set<WorkerId>)
    requires a.runs.Keys == b.runs.Keys && DbHeldFrom(a, b, extra) && DbHeldFrom(b, c, extra)
    ensures DbHeldFrom(a, c, extra)
  {
    hide HeldFrom;
    forall id | id in c.runs && id in a.runs ensures HeldFrom(a.runs[id], c.runs[id], extra) {
      HeldFromTransitive(a.runs[id], b.runs[id], c.runs[id], extra);
    }
  }

  lemma DbHeldFromSame(db: Db, db': Db)
    requires db'.runs == db.runs
    ensures DbHeldFrom(db, db', {})
  {
  }

  lemma {:induction false} ClaimsHeldFrom(db: Db, picks: seq<Pick>, w: WorkerId, until: Time)
    requires ClaimEach(db, picks, w, until).Ok?
    ensures DbHeldFrom(db, ClaimEach(db, picks, w, until).value, {w})
    decreases |picks|
  {
    hide Claim, HeldFrom;
    if picks == [] {
      HeldFromAny(db, {w});
    } else {
      var (id, n) := picks[0];
      var next := OnRun(db, id, Claim(db.runs[id], n, w, until)).value;
      ClaimHolders(db.runs[id], n, w, until);
      HeldFromAny(db, {w});
      OneRunHeldFrom(db, id, next.runs[id], {w});
      ClaimsHeldFrom(next, picks[1..], w, until);
      DbHeldFromTransitive(db, next, ClaimEach(db, picks, w, until).value, {w});
    }
  }

  lemma HeldFromAny(db: Db, extra: set<WorkerId>)
    ensures DbHeldFrom(db, db, extra)
  {
  }

  lemma {:induction false} PromotionsHeldFrom(db: Db, picks: seq<Pick>)
    requires PromoteEach(db, picks).Ok?
    ensures DbHeldFrom(db, PromoteEach(db, picks).value, {})
    decreases |picks|
  {
    hide HeldFrom;
    if picks == [] {
      DbHeldFromSame(db, db);
    } else {
      var (id, n) := picks[0];
      var next := OnRun(db, id, Promote(db.runs[id], n)).value;
      OneRowHeldFrom(db.runs[id], next.runs[id], n);
      OneRunHeldFrom(db, id, next.runs[id], {});
      PromotionsHeldFrom(next, picks[1..]);
      DbHeldFromTransitive(db, next, PromoteEach(db, picks).value, {});
    }
  }

  lemma {:induction false} ExpiriesHeldFrom(db: Db, picks: seq<Pick>, snap: Db, now: Time)
    requires ExpireEach(db, picks, snap, now).Ok?
    ensures DbHeldFrom(db, ExpireEach(db, picks, snap, now).value, {})
    decreases |picks|
  {
    hide HeldFrom, Expire;
    if picks == [] {
      DbHeldFromSame(db, db);
    } else {
      var (id, n) := picks[0];
      var next := OnRun(db, id, Expire(db.runs[id], n, RowAt(snap, picks[0]), now)).value;
      ExpireHolders(db.runs[id], n, RowAt(snap, picks[0]), now);
      OneRunHeldFrom(db, id, next.runs[id], {});
      ExpiriesHeldFrom(next, picks[1..], snap, now);
      DbHeldFromTransitive(db, next, ExpireEach(db, picks, snap, now).value, {});
    }
  }

  // ---------------------------------------------------------------- the property

  predicate LivelyHeld(db: Db, p: Pick)
    requires Exists(db, p)
  {
    RowAt(db, p).status.Holds() ==>
      && RowAt(db, p).worker.Some?
      && RowAt(db, p).worker.value in db.workers
      && Alive(db.workers[RowAt(db, p).worker.value])
  }

  /** No LOST, STOPPED or unknown worker holds a task. */
  predicate GoneHoldNothing(db: Db) {
    forall id, n :: id in db.runs && n in db.runs[id].tasks ==> LivelyHeld(db, (id, n))
  }

  /** The only transactions that can put a task into a gone worker's hands, and when they do not. */
  predicate Spares(db: Db, t: Txn) {
    match t
    case ClaimTx(w, picks, _, _) => picks == [] || (w in db.workers && Alive(db.workers[w]))
    case SweepTx(_, _, lostAfter, _, _) => forall v :: v in SilentWorkers(db, lostAfter) ==> Released(db, v) == {}
    case RetireTx(w, _, _) => w !in db.workers || !Alive(db.workers[w]) || Released(db, w) == {}
    case _ => true
  }

  /** Nobody new comes to hold a task, and whoever holds one is still there. */
  lemma HoldersStayLive(db: Db, db': Db, extra: set<WorkerId>)
    requires GoneHoldNothing(db) && DbHeldFrom(db, db', extra)
    requires forall w :: w in db.workers && Alive(db.workers[w]) && Released(db, w) != {} ==>
               w in db'.workers && Alive(db'.workers[w])
    requires forall w :: w in extra ==> w in db'.workers && Alive(db'.workers[w])
    ensures GoneHoldNothing(db')
  {
    hide Alive, Released;
    forall id, n | id in db'.runs && n in db'.runs[id].tasks ensures LivelyHeld(db', (id, n)) {
      if id in db.runs && n in db.runs[id].tasks && db.runs[id].tasks[n].status.Holds() {
        assert LivelyHeld(db, (id, n));
        HolderIsReleased(db, (id, n));
      }
    }
  }

  lemma HolderIsReleased(db: Db, p: Pick)
    requires Exists(db, p) && RowAt(db, p).status.Holds() && RowAt(db, p).worker.Some?
    ensures p in Released(db, RowAt(db, p).worker.value)
  {
    assert p == (p.0, p.1) && p.1 in HeldTasks(db.runs[p.0], RowAt(db, p).worker.value);
  }

  /** A gone worker holding one task is enough. */
  lemma HeldByGone(db: Db, p: Pick, w: WorkerId)
    requires Exists(db, p) && HoldsLease(RowAt(db, p), w) && (w in db.workers ==> !Alive(db.workers[w]))
    ensures !GoneHoldNothing(db)
  {
    assert !LivelyHeld(db, (p.0, p.1));
  }

  // ---------------------------------------------------------------- the three that can break it

  lemma {:induction false} ClaimedStayHeld(db: Db, picks: seq<Pick>, w: WorkerId, until: Time, p: Pick)
    requires ClaimEach(db, picks, w, until).Ok? && Exists(db, p)
    requires p in picks || HoldsLease(RowAt(db, p), w)
    ensures Exists(ClaimEach(db, picks, w, until).value, p)
    ensures HoldsLease(RowAt(ClaimEach(db, picks, w, until).value, p), w)
    decreases |picks|
  {
    hide Claim;
    if picks != [] {
      var next := OnRun(db, picks[0].0, Claim(db.runs[picks[0].0], picks[0].1, w, until)).value;
      assert p in picks ==> p == picks[0] || p in picks[1..];
      OneClaimHolds(db, picks[0], w, until, p);
      ClaimedStayHeld(next, picks[1..], w, until, p);
    }
  }

  lemma OneClaimHolds(db: Db, q: Pick, w: WorkerId, until: Time, p: Pick)
    requires Exists(db, q) && Exists(db, p) && Claim(db.runs[q.0], q.1, w, until).Ok?
    ensures var next := OnRun(db, q.0, Claim(db.runs[q.0], q.1, w, until)).value;
            && Exists(next, p)
            && (p == q || HoldsLease(RowAt(db, p), w) ==> HoldsLease(RowAt(next, p), w))
  {
    hide Find;
  }

  lemma {:induction false} ClaimSparesIff(db: Db, t: Txn)
    requires t.ClaimTx? && GoneHoldNothing(db) && Tx(db, t).Ok?
    ensures GoneHoldNothing(Apply(db, t)) <==> Spares(db, t)
  {
    hide GoneHoldNothing, ClaimEach, IsDistinct, Claimable;
    var db' := ClaimEach(db, t.picks, t.w, t.leaseUntil).value;
    assert Apply(db, t) == db';
    ClaimKeepsWorkers(db, t.picks, t.w, t.leaseUntil);
    ClaimsHeldFrom(db, t.picks, t.w, t.leaseUntil);
    if t.picks == [] {
      NoClaims(db, t.w, t.leaseUntil);
    } else if Spares(db, t) {
      HoldersStayLive(db, db', {t.w});
    } else {
      assert t.picks[0] in t.picks;
      ClaimedStayHeld(db, t.picks, t.w, t.leaseUntil, t.picks[0]);
      HeldByGone(db', t.picks[0], t.w);
    }
  }

  lemma NoClaims(db: Db, w: WorkerId, until: Time)
    ensures ClaimEach(db, [], w, until) == Ok(db)
  {
  }

  /** Losing workers moves deadlines only: every row stays in the hands it was in. */
  lemma {:induction false} LosingKeepsHolders(db: Db, lost: seq<WorkerId>, now: Time, missed: int)
    ensures LoseEach(db, lost, now, missed).runs.Keys == db.runs.Keys
    ensures DbHeldFrom(db, LoseEach(db, lost, now, missed), {})
    decreases |lost|
  {
    hide LoseWorker, HeldFrom;
    if lost == [] {
      DbHeldFromSame(db, db);
    } else {
      var next := LoseWorker(db, lost[0], now, missed);
      LosingKeepsHolder(db, lost[0], now, missed);
      LosingKeepsHolders(next, lost[1..], now, missed);
      DbHeldFromTransitive(db, next, LoseEach(db, lost, now, missed), {});
    }
  }

  lemma LosingKeepsHolder(db: Db, w: WorkerId, now: Time, missed: int)
    ensures LoseWorker(db, w, now, missed).runs.Keys == db.runs.Keys
    ensures DbHeldFrom(db, LoseWorker(db, w, now, missed), {})
  {
    hide Released, HeldTasks;
    var db' := LoseWorker(db, w, now, missed);
    forall id | id in db'.runs ensures id in db.runs && HeldFrom(db.runs[id], db'.runs[id], {}) {
      var moved := MoveLeases(db.runs[id], db.runs[id].tasks.Keys, w, now);
      assert db'.runs[id] == AnnounceLost(moved, w, missed, |Released(db, w)|);
    }
  }

  lemma PickReleased(db: Db, w: WorkerId) returns (p: Pick)
    requires Released(db, w) != {}
    ensures Exists(db, p) && HoldsLease(RowAt(db, p), w)
  {
    p :| p in Released(db, w);
  }

  /** Which workers survive a sweep. */
  lemma SweptAlive(worker: Worker, suspectAfter: Time, lostAfter: Time)
    requires Alive(worker)
    ensures Alive(SweptWorker(worker, suspectAfter, lostAfter)) <==> worker.lastHeartbeat > lostAfter
  {
  }

  lemma {:induction false} SweepSparesIff(db: Db, t: Txn)
    requires t.SweepTx? && GoneHoldNothing(db) && Tx(db, t).Ok?
    ensures GoneHoldNothing(Apply(db, t)) <==> Spares(db, t)
  {
    hide LoseEach, Lists, Released, GoneHoldNothing, Alive, SweptWorker;
    var swept := db.(workers := map w | w in db.workers :: SweptWorker(db.workers[w], t.suspectAfter, t.lostAfter));
    var db' := LoseEach(swept, t.lost, t.now, t.missedBeats);
    assert Apply(db, t) == db';
    LosingKeepsHolders(swept, t.lost, t.now, t.missedBeats);
    LoseKeepsWorkers(swept, t.lost, t.now, t.missedBeats);
    forall w | w in db.workers && Alive(db.workers[w])
      ensures Alive(db'.workers[w]) <==> w !in SilentWorkers(db, t.lostAfter)
    {
      SweptAlive(db.workers[w], t.suspectAfter, t.lostAfter);
    }
    if Spares(db, t) {
      HoldersStayLive(db, db', {});
    } else {
      var v :| v in SilentWorkers(db, t.lostAfter) && Released(db, v) != {};
      var p := PickReleased(db, v);
      LosingMovesLeases(swept, t.lost, t.now, t.missedBeats, p);
      HeldByGone(db', p, v);
    }
  }

  lemma {:induction false} RetireSparesIff(db: Db, t: Txn)
    requires t.RetireTx? && GoneHoldNothing(db)
    ensures GoneHoldNothing(Apply(db, t)) <==> Spares(db, t)
  {
    hide LoseWorker, GoneHoldNothing;
    if t.w in db.workers && Alive(db.workers[t.w]) {
      var stopped := db.(workers := db.workers[t.w := db.workers[t.w].(status := WorkerStopped)]);
      assert Released(stopped, t.w) == Released(db, t.w);
      if Released(db, t.w) == {} {
        ReleasingKeepsHolders(stopped, t.w, t.now);
        HoldersStayLive(db, Apply(db, t), {});
      } else {
        RetireIsLosing(db, t);
        LosingKeepsWorkers(stopped, t.w, t.now, t.missedBeats);
        var p := PickReleased(db, t.w);
        LosingMovesLease(stopped, t.w, t.now, t.missedBeats, p);
        HeldByGone(Apply(db, t), p, t.w);
      }
    }
  }

  /** Retiring a worker that holds something is losing it. */
  lemma RetireIsLosing(db: Db, t: Txn)
    requires t.RetireTx? && t.w in db.workers && Alive(db.workers[t.w]) && Released(db, t.w) != {}
    ensures var stopped := db.(workers := db.workers[t.w := db.workers[t.w].(status := WorkerStopped)]);
            Apply(db, t) == LoseWorker(stopped, t.w, t.now, t.missedBeats)
  {
    hide MoveLeases, AnnounceLost, HeldTasks;
    var stopped := db.(workers := db.workers[t.w := db.workers[t.w].(status := WorkerStopped)]);
    assert Released(stopped, t.w) == Released(db, t.w);
  }

  lemma ReleasingKeepsHolders(db: Db, w: WorkerId, now: Time)
    ensures DbHeldFrom(db, ReleaseLeases(db, w, now), {})
  {
  }

  // ---------------------------------------------------------------- the others never do

  lemma RunHeldFrom(db: Db, t: Txn)
    requires t.StartTx? || t.SucceedTx? || t.FailTx? || t.CancelTx? || t.NoteTx? || t.CreateRunTx?
    requires Tx(db, t).Ok?
    ensures DbHeldFrom(db, Tx(db, t).value, {}) && Tx(db, t).value.workers == db.workers
  {
    hide HeldFrom, Start, Succeed, Fail, CreateRun, Cancel, Note;
    match t {
      case StartTx(id, n, w, k, handler) => StartHolders(db.runs[id], n, w, k, handler);
      case SucceedTx(id, n, w, k, output, artifacts, now) =>
        SucceedHolders(db.runs[id], n, w, k, output, artifacts, now);
      case FailTx(id, n, w, k, error, permanent, retryAt) =>
        FailHolders(db.runs[id], n, w, k, error, permanent, retryAt);
      case CancelTx(id, reason, now) => CancelHolders(db.runs[id], reason, now);
      case NoteTx(id, n, p) => NoteHolders(db.runs[id], n, p);
      case CreateRunTx(id, d, hash, scenario, seed, now) => CreateHolders(d, hash, scenario, seed, now);
    }
    var id := t.id;
    DbHeldFromSame(db, db);
    OneRunHeldFrom(db, id, Tx(db, t).value.runs[id], {});
  }

  lemma CancelHolders(r: Run, reason: string, now: Time)
    requires Cancel(r, reason, now).Ok?
    ensures HeldFrom(r, Cancel(r, reason, now).value, {})
  {
  }

  lemma NoteHolders(r: Run, n: Name, p: Payload)
    requires Note(r, n, p).Ok?
    ensures HeldFrom(r, Note(r, n, p).value, {})
  {
  }

  lemma CreateHolders(d: Definition, hash: string, scenario: string, seed: int, now: Time)
    requires CreateRun(d, hash, scenario, seed, now).Ok?
    ensures NoneHeld(CreateRun(d, hash, scenario, seed, now).value)
  {
    hide InsertTasks;
    InsertHoldsNothing(Log(NewRun(d), "", RUN_CREATED(d.name, d.version, d.hash, scenario, seed)), d.steps, now);
  }

  lemma {:induction false} OthersSpare(db: Db, t: Txn)
    requires !t.ClaimTx? && !t.SweepTx? && !t.RetireTx? && GoneHoldNothing(db) && Tx(db, t).Ok?
    ensures GoneHoldNothing(Apply(db, t))
  {
    hide GoneHoldNothing, DbHeldFrom, PromoteEach, ExpireEach, CreateRun, Start, Succeed, Fail, Cancel, Note,
         MoveLeases, IsDistinct, Due, Expired;
    match t {
      case PromoteTx(picks, now) => PromotionsHeldFrom(db, picks); PromoteKeepsWorkers(db, picks);
      case ExpireTx(picks, now) => ExpiriesHeldFrom(db, picks, db, now); ExpireKeepsWorkers(db, picks, db, now);
      case RenewTx(w, tasks, deadline) => RenewKeepsHolders(db, w, tasks, deadline);
      case RegisterTx(w, now) => DbHeldFromSame(db, Tx(db, t).value);
      case HeartbeatTx(w, now) => DbHeldFromSame(db, Tx(db, t).value);
      case _ => RunHeldFrom(db, t);
    }
    HoldersStayLive(db, Apply(db, t), {});
  }

  lemma RenewKeepsHolders(db: Db, w: WorkerId, tasks: set<Pick>, deadline: Time)
    ensures DbHeldFrom(db, Renew(db, w, tasks, deadline), {})
  {
  }

  // ---------------------------------------------------------------- the exact condition

  /**
   From a state in which no gone worker holds a task, a committed transaction leads to another
   one exactly unless it claims for a gone worker, or declares a worker gone that holds tasks.
   */
  lemma {:induction false} GoneHoldNothingIff(db: Db, t: Txn)
    requires GoneHoldNothing(db) && Tx(db, t).Ok?
    ensures GoneHoldNothing(Apply(db, t)) <==> Spares(db, t)
  {
    hide GoneHoldNothing, Tx;
    if t.ClaimTx? {
      ClaimSparesIff(db, t);
    } else if t.SweepTx? {
      SweepSparesIff(db, t);
    } else if t.RetireTx? {
      RetireSparesIff(db, t);
    } else {
      OthersSpare(db, t);
    }
  }

  /** Transaction `i` of the schedule commits only where it spares the property. */
  predicate SparesAt(schedule: seq<Txn>, i: nat)
    requires i < |schedule|
  {
    Tx(Exec(EMPTY, schedule[..i]), schedule[i]).Ok? ==> Spares(Exec(EMPTY, schedule[..i]), schedule[i])
  }

  /** Over whole schedules: no gone worker ever holds a task exactly when every transaction spares it. */
  lemma {:induction false} NeverHeldByGoneIff(schedule: seq<Txn>)
    ensures (forall i :: 0 <= i <= |schedule| ==> GoneHoldNothing(Exec(EMPTY, schedule[..i]))) <==>
            (forall i :: 0 <= i < |schedule| ==> SparesAt(schedule, i))
  {
    hide GoneHoldNothing, Spares, Exec, Tx;
    if forall i :: 0 <= i <= |schedule| ==> GoneHoldNothing(Exec(EMPTY, schedule[..i])) {
      forall i | 0 <= i < |schedule| ensures SparesAt(schedule, i) {
        assert GoneHoldNothing(Exec(EMPTY, schedule[..i])) && GoneHoldNothing(Exec(EMPTY, schedule[..i + 1]));
        StepSpares(schedule, i);
      }
    }
    if forall i :: 0 <= i < |schedule| ==> SparesAt(schedule, i) {
      forall i | 0 <= i <= |schedule| ensures GoneHoldNothing(Exec(EMPTY, schedule[..i])) {
        SparedPrefix(schedule, i);
      }
    }
  }

  lemma {:induction false} StepSpares(schedule: seq<Txn>, i: nat)
    requires i < |schedule| && GoneHoldNothing(Exec(EMPTY, schedule[..i]))
    ensures GoneHoldNothing(Exec(EMPTY, schedule[..i + 1])) <==> SparesAt(schedule, i)
  {
    hide GoneHoldNothing, Spares, Exec, Tx;
    var db := Exec(EMPTY, schedule[..i]);
    ExecOne(schedule[..i], schedule[i]);
    assert schedule[..i] + [schedule[i]] == schedule[..i + 1];
    if Tx(db, schedule[i]).Ok? { GoneHoldNothingIff(db, schedule[i]); }
  }

  lemma {:induction false} SparedPrefix(schedule: seq<Txn>, i: nat)
    requires i <= |schedule| && forall j :: 0 <= j < |schedule| ==> SparesAt(schedule, j)
    ensures GoneHoldNothing(Exec(EMPTY, schedule[..i]))
  {
    hide GoneHoldNothing, SparesAt, Exec;
    if i == 0 {
      NothingYetHeld(schedule);
    } else {
      SparedPrefix(schedule, i - 1);
      StepSpares(schedule, i - 1);
    }
  }

  lemma NothingYetHeld(schedule: seq<Txn>)
    ensures GoneHoldNothing(Exec(EMPTY, schedule[..0]))
  {
  }

  // ---------------------------------------------------------------- each cause occurs

  /** A claim by whoever is registered puts the task into that worker's hands. */
  lemma {:induction false} ClaimsIgnoreLiveness(schedule: seq<Txn>, id: RunId, n: Name, w: WorkerId, now: Time,
                                                until: Time)
    requires id in Exec(EMPTY, schedule).runs && Claimable(RunAt(schedule, id), n, now)
    requires w in Exec(EMPTY, schedule).workers
    ensures var db' := Apply(Exec(EMPTY, schedule), ClaimTx(w, [(id, n)], now, until));
            && id in db'.runs && n in db'.runs[id].tasks && HoldsLease(db'.runs[id].tasks[n], w)
            && db'.workers == Exec(EMPTY, schedule).workers && !db'.runs[id].completed
  {
    hide Exec, Inv, ClaimEach;
    var db := Exec(EMPTY, schedule);
    Reachable(schedule);
    assert IsDistinct([(id, n)]);
    ClaimBatch(db, [(id, n)], w, until);
    ClaimKeepsWorkers(db, [(id, n)], w, until);
    ClaimedStayHeld(db, [(id, n)], w, until, (id, n));
    ClaimedIsOpen(db, (id, n), w, until);
  }

  lemma ClaimedIsOpen(db: Db, p: Pick, w: WorkerId, until: Time)
    requires Exists(db, p) && ClaimEach(db, [p], w, until).Ok?
    ensures p.0 in ClaimEach(db, [p], w, until).value.runs && !ClaimEach(db, [p], w, until).value.runs[p.0].completed
  {
    hide Find;
    assert [p][1..] == [];
    var out := OnRun(db, p.0, Claim(db.runs[p.0], p.1, w, until));
    assert ClaimEach(out.value, [], w, until) == Ok(out.value);
  }

  /** A worker that went silent, was declared LOST, and claimed a task all the same. */
  ghost function LostClaim(): seq<Txn> {
    [RegisterTx("w", 0), SweepTx(100, 50, 50, ["w"], 3), CreateRunTx("r", OneStep(), OneStep().hash, "", 0, 0)]
  }

  lemma {:induction false} LostWorkerCanHoldTask(n: Name)
    requires n in Names(OneStep())
    ensures var db := Exec(EMPTY, LostClaim());
            && "r" in db.runs && n in db.runs["r"].tasks && "w" in db.workers && db.workers["w"].status.WorkerLost?
            && var db' := Apply(db, ClaimTx("w", [("r", n)], 0, 200));
            && "r" in db'.runs && n in db'.runs["r"].tasks && HoldsLease(db'.runs["r"].tasks[n], "w")
            && "w" in db'.workers && db'.workers["w"].status.WorkerLost? && !GoneHoldNothing(db')
  {
    hide Tx, Inv;
    var first, second := [RegisterTx("w", 0)], [RegisterTx("w", 0), SweepTx(100, 50, 50, ["w"], 3)];
    assert [] + first == first && LostClaim()[..2] == second && second[..1] == first;
    SilentIsLost();
    assert Exec(EMPTY, []) == EMPTY;
    assert Exec(EMPTY, first) == Apply(EMPTY, first[0]) by { assert first[..0] == []; }
    assert Exec(EMPTY, second) == Apply(Exec(EMPTY, first), second[1]);
    var db := Exec(EMPTY, LostClaim());
    assert db == Apply(Exec(EMPTY, second), LostClaim()[2]);
    CreatedIsClaimable(Exec(EMPTY, second), n);
    ClaimsIgnoreLiveness(LostClaim(), "r", n, "w", 0, 200);
    HeldByGone(Apply(db, ClaimTx("w", [("r", n)], 0, 200)), ("r", n), "w");
  }

  lemma SilentIsLost()
    ensures var db := Apply(EMPTY, RegisterTx("w", 0));
            Apply(db, SweepTx(100, 50, 50, ["w"], 3)) == Db(map[], map["w" := Worker(WorkerLost, 0)])
  {
    var db := Db(map[], map["w" := Worker(WorkerHealthy, 0)]);
    assert Apply(EMPTY, RegisterTx("w", 0)) == db;
    assert SilentWorkers(db, 50) == {"w"};
    assert Lists(["w"], {"w"});
    var swept := Db(map[], map["w" := Worker(WorkerLost, 0)]);
    assert db.(workers := map w | w in db.workers :: SweptWorker(db.workers[w], 50, 50)) == swept;
    assert ["w"][1..] == [];
    assert LoseEach(swept, ["w"], 100, 3) == LoseEach(LoseWorker(swept, "w", 100, 3), [], 100, 3);
    assert LoseWorker(swept, "w", 100, 3) == swept;
  }

  lemma {:induction false} CreatedIsClaimable(db: Db, n: Name)
    requires "r" !in db.runs && n in Names(OneStep())
    ensures var db' := Apply(db, CreateRunTx("r", OneStep(), OneStep().hash, "", 0, 0));
            db'.workers == db.workers && "r" in db'.runs && Claimable(db'.runs["r"], n, 0)
  {
    hide Sound;
    var d := OneStep();
    var created := Log(NewRun(d), "", RUN_CREATED(d.name, d.version, d.hash, "", 0));
    assert d.steps[1..] == [];
    var inserted := SetRow(created, d.steps[0].name, InitialRow(d, d.steps[0], 0));
    var announced := Log(inserted, d.steps[0].name, TASK_SCHEDULED(0, []));
    assert InsertTasks(created, d.steps, 0) == InsertTasks(announced, [], 0);
  }

  /** A live worker that claims a task and then goes silent or is retired. */
  ghost function LiveClaim(n: Name): seq<Txn> {
    [RegisterTx("w", 0), CreateRunTx("r", OneStep(), OneStep().hash, "", 0, 0), ClaimTx("w", [("r", n)], 0, 200)]
  }

  lemma {:induction false} LiveClaimHolds(n: Name)
    requires n in Names(OneStep())
    ensures var db := Exec(EMPTY, LiveClaim(n));
            && db.workers == map["w" := Worker(WorkerHealthy, 0)]
            && "r" in db.runs && n in db.runs["r"].tasks && HoldsLease(db.runs["r"].tasks[n], "w")
            && !db.runs["r"].completed
  {
    hide Tx, Inv;
    var first, second := LiveClaim(n)[..1], LiveClaim(n)[..2];
    assert first == [] + [LiveClaim(n)[0]] && second == first + [LiveClaim(n)[1]];
    assert LiveClaim(n) == second + [LiveClaim(n)[2]];
    RegisterFirst();
    ExecOne([], LiveClaim(n)[0]);
    ExecOne(first, LiveClaim(n)[1]);
    ExecOne(second, LiveClaim(n)[2]);
    assert Exec(EMPTY, []) == EMPTY;
    CreatedIsClaimable(Exec(EMPTY, first), n);
    ClaimsIgnoreLiveness(second, "r", n, "w", 0, 200);
  }

  lemma RegisterFirst()
    ensures Apply(EMPTY, RegisterTx("w", 0)) == Db(map[], map["w" := Worker(WorkerHealthy, 0)])
  {
  }

  /** The sweep declares it LOST; the deadline moves, the task stays in its hands. */
  lemma {:induction false} SweptWorkerStillHolds(n: Name)
    requires n in Names(OneStep())
    ensures var db := Apply(Exec(EMPTY, LiveClaim(n)), SweepTx(100, 50, 50, ["w"], 3));
            && "r" in db.runs && n in db.runs["r"].tasks && HoldsLease(db.runs["r"].tasks[n], "w")
            && "w" in db.workers && db.workers["w"].status.WorkerLost? && !GoneHoldNothing(db)
  {
    hide Exec, Sweep, GoneHoldNothing;
    LiveClaimHolds(n);
    var db := Exec(EMPTY, LiveClaim(n));
    assert SilentWorkers(db, 50) == {"w"};
    assert Lists(["w"], {"w"});
    SweepExpiresLeases(db, 100, 50, 50, ["w"], 3, ("r", n), "w");
    HeldByGone(Sweep(db, 100, 50, 50, ["w"], 3), ("r", n), "w");
  }

  /** Retirement declares it STOPPED, with the same effect. */
  lemma {:induction false} RetiredWorkerStillHolds(n: Name)
    requires n in Names(OneStep())
    ensures var db := Apply(Exec(EMPTY, LiveClaim(n)), RetireTx("w", 100, 3));
            && "r" in db.runs && n in db.runs["r"].tasks && HoldsLease(db.runs["r"].tasks[n], "w")
            && "w" in db.workers && db.workers["w"].status.WorkerStopped? && !GoneHoldNothing(db)
  {
    hide Exec, LoseWorker, GoneHoldNothing;
    LiveClaimHolds(n);
    var db := Exec(EMPTY, LiveClaim(n));
    HolderIsReleased(db, ("r", n));
    RetireIsLosing(db, RetireTx("w", 100, 3));
    var stopped := db.(workers := db.workers["w" := db.workers["w"].(status := WorkerStopped)]);
    LosingMovesLease(stopped, "w", 100, 3, ("r", n));
    LosingKeepsWorkers(stopped, "w", 100, 3);
    HeldByGone(Apply(db, RetireTx("w", 100, 3)), ("r", n), "w");
  }

  /**
   A cancellation moves the deadline of a held task, not its holder, so the holder's late report
   is refused because the run is closed and not because the lease is lost.
   */
  lemma {:induction false} LateReportAfterCancel(n: Name)
    requires n in Names(OneStep())
    ensures var db := Exec(EMPTY, LiveClaim(n));
            && "r" in db.runs && n in db.runs["r"].tasks
            && var late := FailTx("r", n, "w", db.runs["r"].tasks[n].attempt, "", false, 0);
            && Tx(db, CancelTx("r", "", 100)).Ok?
            && Tx(Apply(db, CancelTx("r", "", 100)), late) == Err(RunClosed)
  {
    hide Exec, RunInv, Fail;
    LiveClaimHolds(n);
    var db := Exec(EMPTY, LiveClaim(n));
    RunAtInv(LiveClaim(n), "r");
    CancelKeeps(db.runs["r"], "", 100);
    var cancelled := Cancel(db.runs["r"], "", 100).value;
    FailRefusal(cancelled, n, "w", db.runs["r"].tasks[n].attempt, "", false, 0);
  }

  lemma LosingKeepsWorkers(db: Db, w: WorkerId, now: Time, missed: int)
    ensures LoseWorker(db, w, now, missed).workers == db.workers
  {
    hide MoveLeases, AnnounceLost, Released;
  }
}

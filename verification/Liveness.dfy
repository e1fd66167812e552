/** From every reachable state, the engine's own sweeps and claims can bring any run to a verdict. */
module Liveness {
  import opened Common
  import opened Statuses
  import opened Events
  import opened Workflow
  import opened Tables
  import opened Invariant
  import opened Evolution
  import opened System
  import opened Guarantees
  import opened Futures

  /** Neither a cancellation nor a report from a worker: registering, claiming and the two sweeps. */
  predicate Unassisted(t: Txn) {
    t.RegisterTx? || t.ClaimTx? || t.PromoteTx? || t.ExpireTx?
  }

  predicate AllUnassisted(schedule: seq<Txn>) {
    forall i :: 0 <= i < |schedule| ==> Unassisted(schedule[i])
  }

  lemma {:induction false} OneChange(r: Run, r': Run, steps: seq<Step>, i: nat)
    requires i < |steps| && steps[i].name in r.tasks && steps[i].name in r'.tasks
    requires r.tasks[steps[i].name].status != r'.tasks[steps[i].name].status
    ensures Changed(r, r', steps) >= 1
    decreases |steps|
  {
    if i > 0 { OneChange(r, r', steps[1..], i - 1); }
  }

  /** A changed status uses up some of the budget. */
  lemma {:induction false} ChangeSpends(r: Run, r': Run, n: Name)
    requires Evolves(r, r') && r.tasks.Keys == Names(r.def)
    requires n in r.tasks && r.tasks[n].status != r'.tasks[n].status
    ensures r'.def == r.def && Remaining(r', r'.def.steps) < Remaining(r, r.def.steps)
  {
    hide Remaining, Changed, RowEvolves, RowFrozen;
    var i :| 0 <= i < |r.def.steps| && r.def.steps[i].name == n;
    OneChange(r, r', r.def.steps, i);
    ChangesCost(r, r', r.def.steps);
  }

  // ---------------------------------------------------------------- each kind of movable task

  lemma ClaimMoves(db: Db, p: Pick, w: WorkerId, until: Time)
    requires Exists(db, p) && RowAt(db, p).status.TaskReady? && ClaimEach(db, [p], w, until).Ok?
    ensures Exists(ClaimEach(db, [p], w, until).value, p)
    ensures RowAt(ClaimEach(db, [p], w, until).value, p).status.TaskLeased?
  {
    hide Find;
    assert [p][1..] == [];
    var out := OnRun(db, p.0, Claim(db.runs[p.0], p.1, w, until));
    assert ClaimEach(out.value, [], w, until) == Ok(out.value);
  }

  lemma PromoteMoves(db: Db, p: Pick)
    requires Exists(db, p) && PromoteEach(db, [p]).Ok?
    ensures Exists(PromoteEach(db, [p]).value, p)
    ensures RowAt(PromoteEach(db, [p]).value, p).status.TaskReady?
  {
    assert [p][1..] == [];
    var out := OnRun(db, p.0, Promote(db.runs[p.0], p.1));
    assert PromoteEach(out.value, []) == Ok(out.value);
  }

  lemma ExpireMoves(db: Db, p: Pick, now: Time)
    requires Exists(db, p) && RowAt(db, p).status.Holds() && ExpireEach(db, [p], db, now).Ok?
    ensures Exists(ExpireEach(db, [p], db, now).value, p)
    ensures !RowAt(ExpireEach(db, [p], db, now).value, p).status.Holds()
  {
    hide Expire;
    assert [p][1..] == [];
    var r := db.runs[p.0];
    var out := OnRun(db, p.0, Expire(r, p.1, r.tasks[p.1], now));
    assert ExpireEach(out.value, [], db, now) == Ok(out.value);
    ExpireEnds(r, p.1, now);
  }

  lemma ExpireEnds(r: Run, n: Name, now: Time)
    requires n in r.tasks && r.tasks[n].status.Holds() && Expire(r, n, r.tasks[n], now).Ok?
    ensures var r' := Expire(r, n, r.tasks[n], now).value; n in r'.tasks && !r'.tasks[n].status.Holds()
  {
    hide AbandonDependents, Settle, MaxAttempts;
    var seen := r.tasks[n];
    if !r.status.Terminal() && seen.attempt >= MaxAttempts(r.def, n) {
      var logged := Log(r, n, TASK_LEASE_EXPIRED(seen.attempt));
      var buried := DeadLetterExpired(logged, n, seen).value;
      assert !buried.completed && buried.tasks[n].status.TaskDead?;
      DeadStaysDead(buried, n);
    }
  }

  // ---------------------------------------------------------------- one transaction of progress

  predicate MovedBy(db: Db, t: Txn, id: RunId, n: Name)
    requires id in db.runs && n in db.runs[id].tasks
  {
    && Unassisted(t) && id in Apply(db, t).runs && n in Apply(db, t).runs[id].tasks
    && Apply(db, t).runs[id].tasks[n].status != db.runs[id].tasks[n].status
  }

  lemma {:induction false} ClaimAdvances(db: Db, id: RunId, n: Name, w: WorkerId)
    requires Inv(db) && w in db.workers && id in db.runs && n in db.runs[id].tasks
    requires db.runs[id].tasks[n].status.TaskReady?
    ensures MovedBy(db, ClaimTx(w, [(id, n)], db.runs[id].tasks[n].scheduledAt, 0), id, n)
  {
    hide Inv, ClaimEach, CreateRun, Start, Succeed, Fail, Cancel, Note, Sweep, Retire, Renew, Lists;
    assert IsDistinct([(id, n)]);
    ClaimBatch(db, [(id, n)], w, 0);
    ClaimMoves(db, (id, n), w, 0);
  }

  lemma {:induction false} PromotionAdvances(db: Db, id: RunId, n: Name)
    requires Inv(db) && id in db.runs && n in db.runs[id].tasks && db.runs[id].tasks[n].status.TaskRetrying?
    ensures MovedBy(db, PromoteTx([(id, n)], db.runs[id].tasks[n].scheduledAt), id, n)
  {
    hide Inv, PromoteEach, CreateRun, Start, Succeed, Fail, Cancel, Note, Sweep, Retire, Renew, Lists;
    assert IsDistinct([(id, n)]);
    PromoteBatch(db, [(id, n)]);
    PromoteMoves(db, (id, n));
  }

  lemma {:induction false} ExpiryAdvances(db: Db, id: RunId, n: Name, at: Time)
    requires Inv(db) && id in db.runs && n in db.runs[id].tasks
    requires db.runs[id].tasks[n].status.Holds() && db.runs[id].tasks[n].lease == Some(at)
    ensures MovedBy(db, ExpireTx([(id, n)], at), id, n)
  {
    hide Inv, ExpireEach, CreateRun, Start, Succeed, Fail, Cancel, Note, Sweep, Retire, Renew, Lists;
    assert IsDistinct([(id, n)]);
    ExpireBatch(db, [(id, n)], db, at);
    ExpireMoves(db, (id, n), at);
  }

  /** A movable task can be moved, by one of the two sweeps or by a claim. */
  lemma {:induction false} Advance(db: Db, id: RunId, n: Name, w: WorkerId) returns (t: Txn)
    requires Inv(db) && w in db.workers
    requires id in db.runs && n in db.runs[id].tasks && Movable(db.runs[id].tasks[n].status)
    ensures MovedBy(db, t, id, n)
  {
    hide Inv, MovedBy;
    var row := db.runs[id].tasks[n];
    HeldHasLease(db, id, n);
    if row.status.TaskReady? {
      t := ClaimTx(w, [(id, n)], row.scheduledAt, 0);
      ClaimAdvances(db, id, n, w);
    } else if row.status.TaskRetrying? {
      t := PromoteTx([(id, n)], row.scheduledAt);
      PromotionAdvances(db, id, n);
    } else {
      t := ExpireTx([(id, n)], row.lease.value);
      ExpiryAdvances(db, id, n, row.lease.value);
    }
  }

  lemma HeldHasLease(db: Db, id: RunId, n: Name)
    requires Inv(db) && id in db.runs && n in db.runs[id].tasks
    ensures db.runs[id].tasks[n].status.Holds() ==> db.runs[id].tasks[n].lease.Some?
  {
    hide Settled, Mirror, Barrier, JournalOk, Sound;
    assert RunInv(db.runs[id]);
    assert RowOk(db.runs[id].tasks[n], MaxAttempts(db.runs[id].def, n));
  }

  /** Register a worker if there is none. */
  lemma {:induction false} Staffed(schedule: seq<Txn>) returns (later: seq<Txn>, w: WorkerId)
    ensures AllUnassisted(later) && Exec(EMPTY, schedule + later).runs == Exec(EMPTY, schedule).runs
    ensures w in Exec(EMPTY, schedule + later).workers
  {
    hide Exec;
    var db := Exec(EMPTY, schedule);
    if v :| v in db.workers {
      later, w := [], v;
      assert schedule + later == schedule;
    } else {
      later, w := [RegisterTx("w", 0)], "w";
      ExecOne(schedule, RegisterTx("w", 0));
    }
  }

  lemma {:induction false} StepTowards(schedule: seq<Txn>, id: RunId) returns (later: seq<Txn>)
    requires id in Exec(EMPTY, schedule).runs && !RunAt(schedule, id).completed
    ensures AllUnassisted(later) && id in Exec(EMPTY, schedule + later).runs
    ensures var (r, r') := (RunAt(schedule, id), RunAt(schedule + later, id));
            0 <= Remaining(r', r'.def.steps) < Remaining(r, r.def.steps)
  {
    hide Exec, RunInv, Evolves, Remaining, Apply;
    NeverStalled(schedule, id, 0);
    var r := RunAt(schedule, id);
    var n :| n in r.tasks && Movable(r.tasks[n].status);
    var hired, w := Staffed(schedule);
    Reachable(schedule + hired);
    var t := Advance(Exec(EMPTY, schedule + hired), id, n, w);
    ExecOne(schedule + hired, t);
    later := hired + [t];
    assert schedule + hired + [t] == schedule + later;
    LaterEvolves(schedule, later, id);
    RunAtInv(schedule, id);
    RunAtInv(schedule + later, id);
    TasksAreSteps(r);
    ChangeSpends(r, RunAt(schedule + later, id), n);
    RunRemainingBounds(RunAt(schedule + later, id));
  }

  lemma TasksAreSteps(r: Run)
    requires RunInv(r)
    ensures r.tasks.Keys == Names(r.def)
  {
  }

  /**
   Every reachable run can be brought to a verdict without a single worker report and without
   cancelling it: attempts expire, are retried or run out, and their dependents are abandoned.
   */
  lemma {:induction false} CanAlwaysFinish(schedule: seq<Txn>, id: RunId) returns (later: seq<Txn>)
    requires id in Exec(EMPTY, schedule).runs
    ensures AllUnassisted(later) && id in Exec(EMPTY, schedule + later).runs
    ensures RunAt(schedule + later, id).completed
    decreases Remaining(RunAt(schedule, id), RunAt(schedule, id).def.steps)
  {
    hide Exec, Remaining;
    if RunAt(schedule, id).completed {
      later := [];
      assert schedule + later == schedule;
    } else {
      var first := StepTowards(schedule, id);
      var rest := CanAlwaysFinish(schedule + first, id);
      later := first + rest;
      assert schedule + first + rest == schedule + later;
    }
  }
}

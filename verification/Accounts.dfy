/**
 What every committed transaction does to the whole database, in every reachable state: the rows
 it writes, the rows it leaves alone, and what it adds to each run's history.
 */
module Accounts {
  import opened Common
  import opened Statuses
  import opened Text
  import opened Events
  import opened Workflow
  import opened Replay
  import opened History
  import opened Tables
  import opened Invariant
  import opened Outcomes
  import opened Recovery
  import opened Evolution
  import opened System
  import opened Guarantees
  import opened Futures
  import opened Narration
  import opened Effects

  // ---------------------------------------------------------------- one run at a time

  predicate OneRunTx(t: Txn) {
    t.StartTx? || t.SucceedTx? || t.FailTx? || t.CancelTx? || t.NoteTx?
  }

  /** A transaction on one run leaves every other run, and every worker, as it was. */
  lemma {:induction false} OneRunOnly(db: Db, t: Txn)
    requires OneRunTx(t) && Tx(db, t).Ok?
    ensures t.id in db.runs && t.id in Tx(db, t).value.runs
    ensures Tx(db, t).value == db.(runs := db.runs[t.id := Tx(db, t).value.runs[t.id]])
  {
    hide Start, Succeed, Fail, Cancel, Note;
  }

  /** The run before and after a committed transaction on it. */
  function After(schedule: seq<Txn>, t: Txn): Run
    requires OneRunTx(t) && Tx(Exec(EMPTY, schedule), t).Ok?
  {
    OneRunOnly(Exec(EMPTY, schedule), t);
    Tx(Exec(EMPTY, schedule), t).value.runs[t.id]
  }

  /**
   A start, in every reachable state: the caller held the attempt; the task and the run are RUNNING
   and the attempt is on record; TASK_STARTED is told, and RUN_STARTED if this is the first.
   */
  lemma {:induction false} StartOutcome(schedule: seq<Txn>, t: Txn)
    requires t.StartTx? && Tx(Exec(EMPTY, schedule), t).Ok?
    ensures t.id in Exec(EMPTY, schedule).runs && t.n in RunAt(schedule, t.id).tasks
    ensures var (r, r') := (RunAt(schedule, t.id), After(schedule, t));
            && r.tasks[t.n].status.TaskLeased? && r.tasks[t.n].worker == Some(t.w) && r.tasks[t.n].attempt == t.k
            && r'.status.RunRunning?
            && Apart(r') == Apart(r.(status := RunRunning, attempts := r.attempts + {(t.n, t.k)},
                                     tasks := r.tasks[t.n := r.tasks[t.n].(status := TaskRunning)]))
            && Tells(r, r', [(t.n, TASK_STARTED(t.k, t.handler))] +
                            if r.status.RunQueued? then [("", RUN_STARTED)] else [])
  {
    hide Exec, RunInv, Start, Tells;
    RunAtInv(schedule, t.id);
    StartEffect(RunAt(schedule, t.id), t.n, t.w, t.k, t.handler);
    assert Apart(After(schedule, t)).status == After(schedule, t).status;
  }

  /**
   A success, in every reachable state: the task has its output and its artifacts, the last of each
   name; exactly the tasks that now wait for nothing are READY, claimable from this instant on;
   the verdict is the one the tasks call for; and the history says so, in order, and no more.
   */
  lemma {:induction false} SuccessOutcome(schedule: seq<Txn>, t: Txn)
    requires t.SucceedTx? && Tx(Exec(EMPTY, schedule), t).Ok?
    ensures t.id in Exec(EMPTY, schedule).runs && t.n in RunAt(schedule, t.id).tasks
    ensures var (r, r') := (RunAt(schedule, t.id), After(schedule, t));
            && r.tasks[t.n].status.TaskRunning? && r.tasks[t.n].worker == Some(t.w) && r.tasks[t.n].attempt == t.k
            && SucceededRows(r, r', t.n, t.output, t.now)
            && (forall x :: x in r.tasks && x != t.n ==> (BecomesReady(r, t.n, x) ==> Claimable(r', x, t.now)))
            && Concluded(r, r', r.deadLetters, r.artifacts[t.n := ArtifactsOf(r, t.n) + LastByName(t.artifacts)])
            && Tells(r, r', [(t.n, TASK_SUCCEEDED(t.k, t.output, t.artifacts))]
                            + ReadyStory(r, t.n, Dependents(r.def, t.n)) + VerdictStory(r'))
  {
    hide Exec, RunInv, Succeed, Tells, Concluded, BecomesReady, ReadyStory, VerdictStory, LastByName, ArtifactsOf;
    RunAtInv(schedule, t.id);
    SuccessEffect(RunAt(schedule, t.id), t.n, t.w, t.k, t.output, t.artifacts, t.now);
  }

  /**
   A failure, in every reachable state: retried, at the instant drawn, exactly when it is not
   permanent and the step declares more attempts; otherwise the task is dead, with everything
   below it that was waiting, and the history says why.
   */
  lemma {:induction false} FailureOutcome(schedule: seq<Txn>, t: Txn, i: nat)
    requires t.FailTx? && Tx(Exec(EMPTY, schedule), t).Ok?
    requires t.id in Exec(EMPTY, schedule).runs && i < |RunAt(schedule, t.id).def.steps|
    requires RunAt(schedule, t.id).def.steps[i].name == t.n
    ensures t.n in RunAt(schedule, t.id).tasks && t.n in After(schedule, t).tasks
    ensures var (r, r') := (RunAt(schedule, t.id), After(schedule, t));
            var again := !t.permanent && t.k < Declared(r.def.steps[i]);
            && r.tasks[t.n].status.Holds() && r.tasks[t.n].worker == Some(t.w) && r.tasks[t.n].attempt == t.k
            && (r'.tasks[t.n].status.TaskRetrying? <==> again)
            && (r'.tasks[t.n].status.TaskDead? <==> !again)
            && if again then Retried(r, r', t.n, t.k, t.error, t.retryAt)
               else Died(r, r', t.n, t.k, [(t.n, TASK_FAILED(t.k, Shortened(t.error), false)),
                                           (t.n, TASK_DEAD_LETTERED(t.k, FinalReason(t.permanent, t.error)))])
  {
    hide Exec, RunInv, Fail, MaxAttempts, Retried, Died, Shortened, FinalReason;
    RunAtInv(schedule, t.id);
    RunFacts(RunAt(schedule, t.id));
    var r := RunAt(schedule, t.id);
    DeclaredAttempts(r.def, i);
    FailureEffect(r, t.n, t.w, t.k, t.error, t.permanent, t.retryAt);
    if !t.permanent && t.k < Declared(r.def.steps[i]) {
      RetriedStatus(r, After(schedule, t), t.n, t.k, t.error, t.retryAt);
    } else {
      DiedStatus(r, After(schedule, t), t.n, t.k, [(t.n, TASK_FAILED(t.k, Shortened(t.error), false)),
                                                   (t.n, TASK_DEAD_LETTERED(t.k, FinalReason(t.permanent, t.error)))]);
    }
  }

  lemma RetriedStatus(r: Run, r': Run, n: Name, k: int, error: string, retryAt: Time)
    requires Retried(r, r', n, k, error, retryAt)
    ensures n in r'.tasks && r'.tasks[n].status.TaskRetrying?
  {
    hide Tells;
    assert Apart(r').tasks == r'.tasks;
  }

  lemma DiedStatus(r: Run, r': Run, n: Name, k: int, told: seq<Told>)
    requires Died(r, r', n, k, told)
    ensures n in r.tasks && n in r'.tasks && r'.tasks[n].status.TaskDead?
  {
    hide Tells, Concluded, BurialStory, VerdictStory, Below;
  }

  /** A cancellation, in every reachable state, row by row, with its reason. */
  lemma {:induction false} CancelOutcome(schedule: seq<Txn>, t: Txn)
    requires t.CancelTx? && Tx(Exec(EMPTY, schedule), t).Ok?
    ensures t.id in Exec(EMPTY, schedule).runs
    ensures var (r, r') := (RunAt(schedule, t.id), After(schedule, t));
            && r'.tasks.Keys == r.tasks.Keys
            && (forall n :: n in r.tasks ==>
                  var row := r.tasks[n];
                  r'.tasks[n] == if row.status.Holds() then row.(lease := Some(t.now))
                                 else if row.status.Terminal() then row
                                 else row.(status := TaskDead, worker := None, lease := None))
            && Apart(r') == Apart(r.(tasks := r'.tasks, status := RunCancelled, completed := true))
            && Tells(r, r', [("", RUN_CANCELLED(t.reason))])
  {
    hide Exec, RunInv, Cancel, Tells, Mirror;
    RunAtInv(schedule, t.id);
    HasTasks(RunAt(schedule, t.id));
    CancelEffect(RunAt(schedule, t.id), t.reason, t.now);
  }

  // ---------------------------------------------------------------- batches

  /** What a claim batch tells a run: one lease for each of its tasks in the batch, in order. */
  function ClaimStory(db: Db, picks: seq<Pick>, id: RunId): seq<Told>
    requires forall p :: p in picks ==> Exists(db, p)
    decreases |picks|
  {
    if picks == [] then []
    else
      assert picks[0] in picks;
      (if picks[0].0 == id then [(picks[0].1, TASK_LEASED(RowAt(db, picks[0]).attempt + 1))] else [])
      + ClaimStory(db, picks[1..], id)
  }

  function PromotionStory(db: Db, picks: seq<Pick>, id: RunId): seq<Told>
    requires forall p :: p in picks ==> Exists(db, p)
    decreases |picks|
  {
    if picks == [] then []
    else
      assert picks[0] in picks;
      (if picks[0].0 == id then [(picks[0].1, TASK_SCHEDULED(RowAt(db, picks[0]).attempt, []))] else [])
      + PromotionStory(db, picks[1..], id)
  }

  lemma {:induction false} SameStories(db: Db, db': Db, picks: seq<Pick>, id: RunId)
    requires forall p :: p in picks ==> Exists(db, p) && Exists(db', p) && RowAt(db', p) == RowAt(db, p)
    ensures ClaimStory(db', picks, id) == ClaimStory(db, picks, id)
    ensures PromotionStory(db', picks, id) == PromotionStory(db, picks, id)
    decreases |picks|
  {
    if picks != [] {
      assert picks[0] in picks;
      SameStories(db, db', picks[1..], id);
    }
  }

  /** The row a claim leaves: leased to `w` until the deadline, one attempt further. */
  function LeasedTo(row: TaskRow, w: WorkerId, until: Time): TaskRow {
    row.(status := TaskLeased, worker := Some(w), lease := Some(until), attempt := row.attempt + 1)
  }

  lemma {:induction false} ClaimRows(db: Db, picks: seq<Pick>, w: WorkerId, until: Time, p: Pick)
    requires ClaimEach(db, picks, w, until).Ok? && IsDistinct(picks) && Exists(db, p)
    ensures Exists(ClaimEach(db, picks, w, until).value, p)
    ensures RowAt(ClaimEach(db, picks, w, until).value, p) ==
            if p in picks then LeasedTo(RowAt(db, p), w, until) else RowAt(db, p)
    decreases |picks|
  {
    hide Claim, IsDistinct;
    if picks != [] {
      var (id, n) := picks[0];
      var next := OnRun(db, id, Claim(db.runs[id], n, w, until)).value;
      ClaimEffect(db.runs[id], n, w, until);
      assert Apart(next.runs[id]).tasks == next.runs[id].tasks;
      DistinctRest(picks);
      ClaimRows(next, picks[1..], w, until, p);
    }
  }

  lemma {:induction false} ClaimTells(db: Db, picks: seq<Pick>, w: WorkerId, until: Time, id: RunId)
    requires ClaimEach(db, picks, w, until).Ok? && IsDistinct(picks) && id in db.runs
    requires forall p :: p in picks ==> Exists(db, p)
    ensures id in ClaimEach(db, picks, w, until).value.runs
    ensures Tells(db.runs[id], ClaimEach(db, picks, w, until).value.runs[id], ClaimStory(db, picks, id))
    ensures var r' := ClaimEach(db, picks, w, until).value.runs[id];
            Apart(r') == Apart(db.runs[id].(tasks := r'.tasks))
    decreases |picks|
  {
    hide Claim, IsDistinct, Tells;
    if picks == [] {
      TellsNothing(db.runs[id], db.runs[id]);
    } else {
      assert picks[0] in picks;
      var (x, n) := picks[0];
      var next := OnRun(db, x, Claim(db.runs[x], n, w, until)).value;
      ClaimEffect(db.runs[x], n, w, until);
      assert Apart(next.runs[x]).tasks == next.runs[x].tasks;
      DistinctRest(picks);
      forall p | p in picks[1..] ensures Exists(next, p) && RowAt(next, p) == RowAt(db, p) {
        assert p in picks && p != picks[0];
      }
      ClaimTells(next, picks[1..], w, until, id);
      SameStories(db, next, picks[1..], id);
      var told := if x == id then [(n, TASK_LEASED(db.runs[x].tasks[n].attempt + 1))] else [];
      if x != id { TellsNothing(db.runs[id], next.runs[id]); }
      TellsBoth(db.runs[id], next.runs[id], ClaimEach(db, picks, w, until).value.runs[id], told,
                ClaimStory(db, picks[1..], id));
    }
  }

  /**
   A claim batch, in every reachable state: every picked task is leased to the claimer until the
   deadline, one attempt further, and no clock before the deadline sees it expired; every other
   task is as it was; and each run is told of its own tasks, in order, and of nothing else.
   */
  lemma {:induction false} ClaimOutcome(schedule: seq<Txn>, t: Txn, p: Pick)
    requires t.ClaimTx? && Tx(Exec(EMPTY, schedule), t).Ok? && Exists(Exec(EMPTY, schedule), p)
    ensures var (db, db') := (Exec(EMPTY, schedule), Tx(Exec(EMPTY, schedule), t).value);
            && Exists(db', p) && db'.workers == db.workers
            && RowAt(db', p) == (if p in t.picks then LeasedTo(RowAt(db, p), t.w, t.leaseUntil) else RowAt(db, p))
            && (p in t.picks ==> forall now :: now < t.leaseUntil ==> !Expired(db'.runs[p.0], p.1, now))
            && (forall q :: q in t.picks ==> Exists(db, q))
            && Tells(db.runs[p.0], db'.runs[p.0], ClaimStory(db, t.picks, p.0))
            && Apart(db'.runs[p.0]) == Apart(db.runs[p.0].(tasks := db'.runs[p.0].tasks))
  {
    hide Exec, ClaimEach, Tells, ClaimStory, IsDistinct, Claimable;
    var db := Exec(EMPTY, schedule);
    ClaimRows(db, t.picks, t.w, t.leaseUntil, p);
    ClaimTells(db, t.picks, t.w, t.leaseUntil, p.0);
    ClaimKeepsWorkers(db, t.picks, t.w, t.leaseUntil);
  }

  lemma {:induction false} PromotionRows(db: Db, picks: seq<Pick>, p: Pick)
    requires PromoteEach(db, picks).Ok? && IsDistinct(picks) && Exists(db, p)
    ensures Exists(PromoteEach(db, picks).value, p)
    ensures RowAt(PromoteEach(db, picks).value, p) ==
            if p in picks then RowAt(db, p).(status := TaskReady) else RowAt(db, p)
    decreases |picks|
  {
    hide Promote, IsDistinct;
    if picks != [] {
      var (id, n) := picks[0];
      var next := OnRun(db, id, Promote(db.runs[id], n)).value;
      PromotionEffect(db.runs[id], n);
      assert Apart(next.runs[id]).tasks == next.runs[id].tasks;
      DistinctRest(picks);
      PromotionRows(next, picks[1..], p);
    }
  }

  lemma {:induction false} PromotionTells(db: Db, picks: seq<Pick>, id: RunId)
    requires PromoteEach(db, picks).Ok? && IsDistinct(picks) && id in db.runs
    requires forall p :: p in picks ==> Exists(db, p)
    ensures id in PromoteEach(db, picks).value.runs
    ensures Tells(db.runs[id], PromoteEach(db, picks).value.runs[id], PromotionStory(db, picks, id))
    ensures var r' := PromoteEach(db, picks).value.runs[id];
            Apart(r') == Apart(db.runs[id].(tasks := r'.tasks))
    decreases |picks|
  {
    hide Promote, IsDistinct, Tells;
    if picks == [] {
      TellsNothing(db.runs[id], db.runs[id]);
    } else {
      assert picks[0] in picks;
      var (x, n) := picks[0];
      var next := OnRun(db, x, Promote(db.runs[x], n)).value;
      PromotionEffect(db.runs[x], n);
      assert Apart(next.runs[x]).tasks == next.runs[x].tasks;
      DistinctRest(picks);
      forall p | p in picks[1..] ensures Exists(next, p) && RowAt(next, p) == RowAt(db, p) {
        assert p in picks && p != picks[0];
      }
      PromotionTells(next, picks[1..], id);
      SameStories(db, next, picks[1..], id);
      var told := if x == id then [(n, TASK_SCHEDULED(db.runs[x].tasks[n].attempt, []))] else [];
      if x != id { TellsNothing(db.runs[id], next.runs[id]); }
      TellsBoth(db.runs[id], next.runs[id], PromoteEach(db, picks).value.runs[id], told,
                PromotionStory(db, picks[1..], id));
    }
  }

  /** A promotion batch: every picked task is READY, at the time it was scheduled for; no other changes. */
  lemma {:induction false} PromotionOutcome(schedule: seq<Txn>, t: Txn, p: Pick)
    requires t.PromoteTx? && Tx(Exec(EMPTY, schedule), t).Ok? && Exists(Exec(EMPTY, schedule), p)
    ensures var (db, db') := (Exec(EMPTY, schedule), Tx(Exec(EMPTY, schedule), t).value);
            && Exists(db', p) && db'.workers == db.workers
            && RowAt(db', p) == (if p in t.picks then RowAt(db, p).(status := TaskReady) else RowAt(db, p))
            && (p in t.picks ==> Claimable(db'.runs[p.0], p.1, t.now))
            && (forall q :: q in t.picks ==> Exists(db, q))
            && Tells(db.runs[p.0], db'.runs[p.0], PromotionStory(db, t.picks, p.0))
            && Apart(db'.runs[p.0]) == Apart(db.runs[p.0].(tasks := db'.runs[p.0].tasks))
  {
    hide Exec, PromoteEach, Tells, PromotionStory, IsDistinct;
    var db := Exec(EMPTY, schedule);
    PromotionRows(db, t.picks, p);
    PromotionTells(db, t.picks, p.0);
    PromoteKeepsWorkers(db, t.picks);
  }

  /** What becomes of a held row whose lease has run out. */
  function Reclaimed(row: TaskRow, again: bool, now: Time): TaskRow {
    if again then row.(status := TaskReady, worker := None, lease := None, scheduledAt := now)
    else row.(status := TaskDead, worker := None, lease := None)
  }

  /** As it was, or given up while it was waiting. */
  predicate LeftAlone(row: TaskRow, row': TaskRow) {
    row' == row || (row.status.TaskPending? && row' == row.(status := TaskDead, worker := None))
  }

  /** One entry of a batch: its own row is reclaimed, and no other moves; while one is held, the run stays open. */
  lemma {:induction false} OneExpiryRows(r: Run, n: Name, now: Time, x: Name)
    requires RunInv(r) && n in r.tasks && r.tasks[n].status.Holds() && x in r.tasks
    ensures Expire(r, n, r.tasks[n], now).Ok?
    ensures var r' := Expire(r, n, r.tasks[n], now).value;
            && r'.def == r.def && x in r'.tasks
            && (var again := !r.completed && r.tasks[n].attempt < MaxAttempts(r.def, n);
                if x == n then r'.tasks[n] == Reclaimed(r.tasks[n], again, now)
                else LeftAlone(r.tasks[x], r'.tasks[x]) && (r.tasks[x].status.Holds() ==> r'.completed == r.completed))
  {
    hide RunInv, Expire, Tells, MaxAttempts, Letters, BurialStory, VerdictStory, Below, Descendants;
    ExpiryEffect(r, n, now);
    HasTasks(r);
    var r' := Expire(r, n, r.tasks[n], now).value;
    assert Apart(r').tasks == r'.tasks && Apart(r').completed == r'.completed && Apart(r').def == r'.def;
    if x != n && r.tasks[x].status.Holds() { assert !r'.tasks[x].status.Terminal(); }
  }

  lemma {:induction false} ExpiryRows(db: Db, picks: seq<Pick>, snap: Db, now: Time, p: Pick)
    requires Inv(db) && IsDistinct(picks) && AsSelected(db, picks, snap) && Exists(db, p)
    ensures ExpireEach(db, picks, snap, now).Ok? && Exists(ExpireEach(db, picks, snap, now).value, p)
    ensures var (r, row') := (db.runs[p.0], RowAt(ExpireEach(db, picks, snap, now).value, p));
            if p in picks
            then row' == Reclaimed(RowAt(db, p), !r.completed && RowAt(db, p).attempt < MaxAttempts(r.def, p.1), now)
            else LeftAlone(RowAt(db, p), row')
    decreases |picks|
  {
    hide Evolves, RunInv, IsDistinct, Expire, MaxAttempts;
    ExpireBatch(db, picks, snap, now);
    if picks != [] {
      var (id, n) := picks[0];
      assert picks[0] in picks;
      var r := db.runs[id];
      ExpireKeeps(r, n, now);
      ExpireEvolves(r, n, now);
      var out := Expire(r, n, r.tasks[n], now);
      OneRunGood(db, id, out);
      var next := OnRun(db, id, out).value;
      DistinctRest(picks);
      forall q | q in picks[1..] ensures Exists(next, q) && RowAt(next, q) == RowAt(snap, q) {
        assert q in picks && q != picks[0];
      }
      OneExpiryRows(r, n, now, if p.0 == id then p.1 else n);
      assert p in picks ==> p == picks[0] || p in picks[1..];
      ExpiryRows(next, picks[1..], snap, now, p);
    }
  }

  /**
   An expiry batch, in every reachable state and over any mix of runs: every picked task of an open
   run with attempts left is claimable from this instant on, with no worker and the attempt still
   consumed; every other picked task is dead; and no other task moves, but for waiting ones that die.
   */
  lemma {:induction false} ExpiryOutcome(schedule: seq<Txn>, t: Txn, p: Pick, i: nat)
    requires t.ExpireTx? && Tx(Exec(EMPTY, schedule), t).Ok? && Exists(Exec(EMPTY, schedule), p)
    requires i < |RunAt(schedule, p.0).def.steps| && RunAt(schedule, p.0).def.steps[i].name == p.1
    ensures var (db, db') := (Exec(EMPTY, schedule), Tx(Exec(EMPTY, schedule), t).value);
            && Exists(db', p) && db'.workers == db.workers
            && var again := !db.runs[p.0].completed && RowAt(db, p).attempt < Declared(db.runs[p.0].def.steps[i]);
            && (if p in t.picks then RowAt(db', p) == Reclaimed(RowAt(db, p), again, t.now)
                else LeftAlone(RowAt(db, p), RowAt(db', p)))
            && (p in t.picks && again ==> Claimable(db'.runs[p.0], p.1, t.now))
  {
    hide Exec, Inv, RunInv, ExpireEach, IsDistinct, MaxAttempts;
    var db := Exec(EMPTY, schedule);
    Reachable(schedule);
    RunAtInv(schedule, p.0);
    RunFacts(RunAt(schedule, p.0));
    DeclaredAttempts(RunAt(schedule, p.0).def, i);
    ExpiryRows(db, t.picks, db, t.now, p);
    ExpireKeepsWorkers(db, t.picks, db, t.now);
  }

  /** A renewal: exactly the requested tasks the worker holds get the deadline; nothing else, and no event. */
  lemma {:induction false} RenewalOutcome(db: Db, w: WorkerId, tasks: set<Pick>, deadline: Time, p: Pick)
    requires Exists(db, p)
    ensures var db' := Apply(db, RenewTx(w, tasks, deadline));
            && Exists(db', p) && db'.workers == db.workers
            && RowAt(db', p) == (if p in tasks && RowAt(db, p).status.Holds() && RowAt(db, p).worker == Some(w)
                                 then RowAt(db, p).(lease := Some(deadline)) else RowAt(db, p))
            && db'.runs[p.0] == db.runs[p.0].(tasks := db'.runs[p.0].tasks)
  {
    var names := set q | q in tasks && q.0 == p.0 :: q.1;
    assert p == (p.0, p.1);
    assert p.1 in names <==> p in tasks;
  }

  // ---------------------------------------------------------------- losing workers

  /** `w` holds a task of this run, and the run is still open. */
  predicate Affected(r: Run, w: WorkerId) {
    !r.completed && exists n :: n in r.tasks && r.tasks[n].status.Holds() && r.tasks[n].worker == Some(w)
  }

  /** What a run is told when these workers are lost: each loss that affects it, in order. */
  function LossStory(db: Db, r: Run, lost: seq<WorkerId>, missed: int): seq<Told>
    decreases |lost|
  {
    if lost == [] then []
    else (if Affected(r, lost[0]) then [("", WORKER_LOST(missed, |Released(db, lost[0])|))] else [])
         + LossStory(db, r, lost[1..], missed)
  }

  /** The leases of `w`, over all runs. */
  lemma ReleasedIff(db: Db, w: WorkerId, p: Pick)
    ensures p in Released(db, w) <==>
            Exists(db, p) && RowAt(db, p).status.Holds() && RowAt(db, p).worker == Some(w)
  {
    assert p == (p.0, p.1);
  }

  /** Same holders and same verdicts: the same workers affect the same runs. */
  predicate SameHolders(db: Db, db': Db) {
    && db'.runs.Keys == db.runs.Keys
    && forall id :: id in db.runs ==>
         && db'.runs[id].completed == db.runs[id].completed
         && db'.runs[id].tasks.Keys == db.runs[id].tasks.Keys
         && forall n :: n in db.runs[id].tasks ==>
              && db'.runs[id].tasks[n].status == db.runs[id].tasks[n].status
              && db'.runs[id].tasks[n].worker == db.runs[id].tasks[n].worker
  }

  lemma {:induction false} SameLosses(db: Db, db': Db, id: RunId, lost: seq<WorkerId>, missed: int)
    requires SameHolders(db, db') && id in db.runs
    ensures LossStory(db', db'.runs[id], lost, missed) == LossStory(db, db.runs[id], lost, missed)
    decreases |lost|
  {
    if lost != [] {
      SameReleased(db, db', lost[0]);
      assert Affected(db'.runs[id], lost[0]) <==> Affected(db.runs[id], lost[0]);
      SameLosses(db, db', id, lost[1..], missed);
    }
  }

  lemma SameReleased(db: Db, db': Db, w: WorkerId)
    requires SameHolders(db, db')
    ensures Released(db', w) == Released(db, w)
  {
    hide Released;
    forall p ensures p in Released(db', w) <==> p in Released(db, w) {
      ReleasedIff(db, w, p);
      ReleasedIff(db', w, p);
    }
  }

  /** Losing one worker: its leases end now, and each run it affects is told so once. */
  lemma LossEffect(db: Db, w: WorkerId, now: Time, missed: int)
    ensures SameHolders(db, LoseWorker(db, w, now, missed))
    ensures forall id :: id in db.runs ==>
              && id in LoseWorker(db, w, now, missed).runs
              && LossTold(db, db.runs[id], LoseWorker(db, w, now, missed).runs[id], [w], missed)
  {
    hide Released, Tells;
    var db' := LoseWorker(db, w, now, missed);
    forall id | id in db.runs
      ensures id in db'.runs && LossTold(db, db.runs[id], db'.runs[id], [w], missed)
    {
      var r := db.runs[id];
      var moved := MoveLeases(r, r.tasks.Keys, w, now);
      assert db'.runs[id] == AnnounceLost(moved, w, missed, |Released(db, w)|);
      OneLoss(db, r, moved, w, now, missed);
    }
  }

  /** `r'` is `r` with other deadlines, and is told of these losses. */
  predicate LossTold(db: Db, r: Run, r': Run, lost: seq<WorkerId>, missed: int) {
    && Apart(r') == Apart(r.(tasks := r'.tasks))
    && Tells(r, r', LossStory(db, r, lost, missed))
  }

  lemma OneLoss(db: Db, r: Run, moved: Run, w: WorkerId, now: Time, missed: int)
    requires moved == MoveLeases(r, r.tasks.Keys, w, now)
    ensures LossTold(db, r, AnnounceLost(moved, w, missed, |Released(db, w)|), [w], missed)
  {
    hide Released, Tells;
    assert [w][1..] == [];
    assert LossStory(db, r, [], missed) == [];
    HoldsSome(moved, w);
    assert Affected(r, w) <==> !r.completed && HeldTasks(moved, w) != {} by {
      assert forall n :: n in r.tasks ==>
        moved.tasks[n].status == r.tasks[n].status && moved.tasks[n].worker == r.tasks[n].worker;
    }
    var told := AnnounceLost(moved, w, missed, |Released(db, w)|);
    if Affected(r, w) {
      TellsOne(r, told, "", WORKER_LOST(missed, |Released(db, w)|));
      assert LossStory(db, r, [w], missed) == [("", WORKER_LOST(missed, |Released(db, w)|))];
    } else {
      TellsNothing(r, told);
      assert LossStory(db, r, [w], missed) == [];
    }
  }

  lemma HoldsSome(r: Run, w: WorkerId)
    ensures HeldTasks(r, w) != {} <==>
            exists n :: n in r.tasks && r.tasks[n].status.Holds() && r.tasks[n].worker == Some(w)
  {
    if n :| n in r.tasks && r.tasks[n].status.Holds() && r.tasks[n].worker == Some(w) {
      assert n in HeldTasks(r, w);
    }
  }

  lemma {:induction false} LossesEffect(db: Db, lost: seq<WorkerId>, now: Time, missed: int, id: RunId)
    requires id in db.runs
    ensures id in LoseEach(db, lost, now, missed).runs
    ensures LossTold(db, db.runs[id], LoseEach(db, lost, now, missed).runs[id], lost, missed)
    decreases |lost|
  {
    hide LoseWorker, Tells, Released, SameHolders, Affected;
    if lost == [] {
      TellsNothing(db.runs[id], db.runs[id]);
    } else {
      var (w, rest) := (lost[0], lost[1..]);
      var next := LoseWorker(db, w, now, missed);
      LossEffect(db, w, now, missed);
      LossesEffect(next, rest, now, missed, id);
      SameLosses(db, next, id, rest, missed);
      var r' := LoseEach(db, lost, now, missed).runs[id];
      TellsBoth(db.runs[id], next.runs[id], r', LossStory(db, db.runs[id], [w], missed),
                LossStory(db, db.runs[id], rest, missed));
      FirstLoss(db, db.runs[id], lost, missed);
    }
  }

  lemma FirstLoss(db: Db, r: Run, lost: seq<WorkerId>, missed: int)
    requires lost != []
    ensures LossStory(db, r, lost, missed) == LossStory(db, r, [lost[0]], missed) + LossStory(db, r, lost[1..], missed)
  {
    hide Released, Affected;
    assert [lost[0]][1..] == [] && LossStory(db, r, [], missed) == [];
  }

  /** How many of these workers affect the run. */
  function Losses(r: Run, lost: seq<WorkerId>): nat
    decreases |lost|
  {
    if lost == [] then 0 else (if Affected(r, lost[0]) then 1 else 0) + Losses(r, lost[1..])
  }

  lemma {:induction false} LossesCounted(db: Db, r: Run, lost: seq<WorkerId>, missed: int)
    ensures |LossStory(db, r, lost, missed)| == Losses(r, lost)
    ensures forall i :: 0 <= i < |LossStory(db, r, lost, missed)| ==> LossStory(db, r, lost, missed)[i].1.WORKER_LOST?
    decreases |lost|
  {
    hide Released, Affected;
    if lost != [] { LossesCounted(db, r, lost[1..], missed); }
  }

  /** Replay's count of lost workers rises by one for each WORKER_LOST told. */
  lemma {:induction false} LossesReplayed(r: Run, r': Run, told: seq<Told>)
    requires Fold(r.journal).Ok? && Fold(r'.journal).Ok? && Tells(r, r', told)
    requires forall i :: 0 <= i < |told| ==> told[i].1.WORKER_LOST?
    ensures Fold(r'.journal).value.workersLost == Fold(r.journal).value.workersLost + |told|
  {
    hide Fold, Collect;
    ReplayReadsRun(r.journal);
    ReplayReadsRun(r'.journal);
    var more := r'.journal[|r.journal|..];
    assert r'.journal == r.journal + more;
    CollectConcat(r.journal, more, LossOf);
    forall i | 0 <= i < |more| ensures more[i].payload.WORKER_LOST? {
      assert Says(r'.journal[|r.journal| + i], told[i]);
    }
    AllLosses(more);
  }

  lemma {:induction false} AllLosses(events: seq<Event>)
    requires forall i :: 0 <= i < |events| ==> events[i].payload.WORKER_LOST?
    ensures |Collect(events, LossOf)| == |events|
    decreases |events|
  {
    if events != [] { AllLosses(events[1..]); }
  }

  /**
   A sweep, in every reachable state: each run's history grows by one WORKER_LOST for each worker
   lost that held a task of it while it was open, carrying the leases that worker held over all
   runs, and by nothing else; replay counts exactly as many more.
   */
  lemma {:induction false} SweepAnnounces(schedule: seq<Txn>, t: Txn, id: RunId)
    requires t.SweepTx? && Tx(Exec(EMPTY, schedule), t).Ok? && id in Exec(EMPTY, schedule).runs
    ensures var (db, db') := (Exec(EMPTY, schedule), Tx(Exec(EMPTY, schedule), t).value);
            && id in db'.runs
            && LossTold(db, db.runs[id], db'.runs[id], t.lost, t.missedBeats)
            && Fold(db.runs[id].journal).Ok? && Fold(db'.runs[id].journal).Ok?
            && Fold(db'.runs[id].journal).value.workersLost ==
               Fold(db.runs[id].journal).value.workersLost + Losses(db.runs[id], t.lost)
  {
    hide Exec, LoseEach, Lists, SilentWorkers, Fold, Tells, LossStory, Losses, SweptWorker, Inv;
    var db, db' := Exec(EMPTY, schedule), Tx(Exec(EMPTY, schedule), t).value;
    var swept := db.(workers := map w | w in db.workers :: SweptWorker(db.workers[w], t.suspectAfter, t.lostAfter));
    LossesEffect(swept, t.lost, t.now, t.missedBeats, id);
    SameLosses(swept, db, id, t.lost, t.missedBeats);
    ReplayRefinesEngine(schedule, id);
    ExecOne(schedule, t);
    ReplayRefinesEngine(schedule + [t], id);
    LossesCounted(db, db.runs[id], t.lost, t.missedBeats);
    LossesReplayed(db.runs[id], db'.runs[id], LossStory(db, db.runs[id], t.lost, t.missedBeats));
  }

  /** A retirement of a live worker is announced in the same way; one already gone changes nothing. */
  lemma {:induction false} RetirementAnnounces(schedule: seq<Txn>, t: Txn, id: RunId)
    requires t.RetireTx? && id in Exec(EMPTY, schedule).runs
    ensures var (db, db') := (Exec(EMPTY, schedule), Apply(Exec(EMPTY, schedule), t));
            && id in db'.runs
            && (if t.w !in db.workers || !Alive(db.workers[t.w]) then db' == db
                else
                  && db'.workers == db.workers[t.w := db.workers[t.w].(status := WorkerStopped)]
                  && LossTold(db, db.runs[id], db'.runs[id], [t.w], t.missedBeats)
                  && Fold(db.runs[id].journal).Ok? && Fold(db'.runs[id].journal).Ok?
                  && Fold(db'.runs[id].journal).value.workersLost ==
                     Fold(db.runs[id].journal).value.workersLost + Losses(db.runs[id], [t.w]))
  {
    hide Exec, LoseWorker, Fold, Tells, LossStory, Losses, Inv, Released, ReleaseLeases, AnnounceWorkerLost;
    var db := Exec(EMPTY, schedule);
    if t.w in db.workers && Alive(db.workers[t.w]) {
      var stopped := db.(workers := db.workers[t.w := db.workers[t.w].(status := WorkerStopped)]);
      RetiredRuns(db, t);
      LossEffect(stopped, t.w, t.now, t.missedBeats);
      SameLosses(stopped, db, id, [t.w], t.missedBeats);
      ReplayRefinesEngine(schedule, id);
      ExecOne(schedule, t);
      ReplayRefinesEngine(schedule + [t], id);
      LossesCounted(db, db.runs[id], [t.w], t.missedBeats);
      LossesReplayed(db.runs[id], Apply(db, t).runs[id], LossStory(db, db.runs[id], [t.w], t.missedBeats));
    }
  }

  /** Without leases to release there is nobody to tell, so the two ways to retire agree. */
  lemma RetiredRuns(db: Db, t: Txn)
    requires t.RetireTx? && t.w in db.workers && Alive(db.workers[t.w])
    ensures var stopped := db.(workers := db.workers[t.w := db.workers[t.w].(status := WorkerStopped)]);
            Apply(db, t) == LoseWorker(stopped, t.w, t.now, t.missedBeats) && Apply(db, t).workers == stopped.workers
  {
    hide MoveLeases, Released;
    var stopped := db.(workers := db.workers[t.w := db.workers[t.w].(status := WorkerStopped)]);
    assert SameHolders(db, stopped);
    SameReleased(db, stopped, t.w);
    if Released(db, t.w) == {} {
      var released := ReleaseLeases(stopped, t.w, t.now);
      forall id | id in released.runs
        ensures AnnounceLost(released.runs[id], t.w, t.missedBeats, |Released(stopped, t.w)|) == released.runs[id]
      {
        NobodyToTell(stopped, t.w, t.now, id);
      }
      assert AnnounceWorkerLost(released, t.w, t.missedBeats, |Released(stopped, t.w)|).runs == released.runs;
    }
  }

  /** A retirement ends exactly the leases of its worker, there and then, and moves no other row. */
  lemma {:induction false} RetirementMovesLeases(db: Db, t: Txn, p: Pick)
    requires t.RetireTx? && t.w in db.workers && Alive(db.workers[t.w]) && Exists(db, p)
    ensures var (db', row) := (Apply(db, t), RowAt(db, p));
            && Exists(db', p)
            && RowAt(db', p) == (if row.status.Holds() && row.worker == Some(t.w)
                                 then row.(lease := Some(t.now)) else row)
  {
    hide Apply, LoseWorker;
    RetiredRuns(db, t);
    LosingMovesLease(db.(workers := db.workers[t.w := db.workers[t.w].(status := WorkerStopped)]), t.w, t.now,
                     t.missedBeats, p);
  }

  lemma NobodyToTell(db: Db, w: WorkerId, now: Time, id: RunId)
    requires id in db.runs && Released(db, w) == {}
    ensures HeldTasks(MoveLeases(db.runs[id], db.runs[id].tasks.Keys, w, now), w) == {}
  {
    hide Released;
    var moved := MoveLeases(db.runs[id], db.runs[id].tasks.Keys, w, now);
    forall n | n in HeldTasks(moved, w) ensures false { ReleasedIff(db, w, (id, n)); }
  }

  // ---------------------------------------------------------------- liveness of workers

  /** What a sweep makes of a worker, from its status and its last heartbeat. */
  function Reclassified(worker: Worker, suspectAfter: Time, lostAfter: Time): WorkerStatus {
    match worker.status
    case WorkerLost => WorkerLost
    case WorkerStopped => WorkerStopped
    case WorkerSuspect => if worker.lastHeartbeat <= lostAfter then WorkerLost else WorkerSuspect
    case WorkerHealthy =>
      if worker.lastHeartbeat <= lostAfter then WorkerLost
      else if worker.lastHeartbeat <= suspectAfter then WorkerSuspect
      else WorkerHealthy
  }

  lemma {:induction false} SweepReclassifies(db: Db, t: Txn, w: WorkerId)
    requires t.SweepTx? && Tx(db, t).Ok?
    ensures Tx(db, t).value.workers.Keys == db.workers.Keys
    ensures w in db.workers ==>
              Tx(db, t).value.workers[w] ==
              Worker(Reclassified(db.workers[w], t.suspectAfter, t.lostAfter), db.workers[w].lastHeartbeat)
  {
    hide LoseEach, Lists, SilentWorkers;
    var swept := db.(workers := map v | v in db.workers :: SweptWorker(db.workers[v], t.suspectAfter, t.lostAfter));
    LoseKeepsWorkers(swept, t.lost, t.now, t.missedBeats);
  }

  /** Nothing that could cost `w` its place: no retirement, no older heartbeat, no sweep past `beat`. */
  predicate Gentle(t: Txn, w: WorkerId, beat: Time) {
    match t
    case RetireTx(v, _, _) => v != w
    case HeartbeatTx(v, now) => v == w ==> now >= beat
    case SweepTx(_, _, lostAfter, _, _) => lostAfter < beat
    case _ => true
  }

  /**
   A heartbeat spares its worker: registered or heard from at `beat`, it stays alive through any
   continuation whose sweeps look back less far than that, unless it is retired.
   */
  lemma {:induction false} HeartbeatSpares(db: Db, later: seq<Txn>, w: WorkerId, beat: Time)
    requires w in db.workers && Alive(db.workers[w]) && db.workers[w].lastHeartbeat >= beat
    requires forall i :: 0 <= i < |later| ==> Gentle(later[i], w, beat)
    ensures var db' := Exec(db, later);
            w in db'.workers && Alive(db'.workers[w]) && db'.workers[w].lastHeartbeat >= beat
    decreases |later|
  {
    hide Apply;
    if later != [] {
      var init := later[..|later| - 1];
      HeartbeatSpares(db, init, w, beat);
      StaysAlive(Exec(db, init), later[|later| - 1], w, beat);
    }
  }

  lemma {:induction false} StaysAlive(db: Db, t: Txn, w: WorkerId, beat: Time)
    requires w in db.workers && Alive(db.workers[w]) && db.workers[w].lastHeartbeat >= beat && Gentle(t, w, beat)
    ensures var db' := Apply(db, t); w in db'.workers && Alive(db'.workers[w]) && db'.workers[w].lastHeartbeat >= beat
  {
    hide Claimable, Due, Expired, IsDistinct, Lists, SilentWorkers, Sweep, ClaimEach, PromoteEach, ExpireEach,
         CreateRun, Start, Succeed, Fail, Cancel, Note, MoveLeases, AnnounceLost, Released;
    match t {
      case ClaimTx(v, picks, now, until) => ClaimKeepsWorkers(db, picks, v, until);
      case PromoteTx(picks, now) => PromoteKeepsWorkers(db, picks);
      case ExpireTx(picks, now) => ExpireKeepsWorkers(db, picks, db, now);
      case SweepTx(now, s, l, lost, missed) => if Tx(db, t).Ok? { SweepReclassifies(db, t, w); }
      case _ =>
    }
  }

  /** A heartbeat of a worker that is not gone makes it healthy as of now, whatever it was. */
  lemma HeartbeatOutcome(db: Db, w: WorkerId, now: Time)
    ensures Tx(db, HeartbeatTx(w, now)).Ok? <==> w in db.workers && Alive(db.workers[w])
    ensures Tx(db, HeartbeatTx(w, now)).Ok? ==>
              Tx(db, HeartbeatTx(w, now)).value == Db(db.runs, db.workers[w := Worker(WorkerHealthy, now)])
    ensures Tx(db, RegisterTx(w, now)).Ok? <==> w !in db.workers
    ensures Tx(db, RegisterTx(w, now)).Ok? ==>
              Tx(db, RegisterTx(w, now)).value == Db(db.runs, db.workers[w := Worker(WorkerHealthy, now)])
  {
  }

  // ---------------------------------------------------------------- how a run was created

  /** Transaction `i` of the schedule created run `id`. */
  predicate Creates(schedule: seq<Txn>, i: nat, id: RunId) {
    && i < |schedule| && schedule[i].CreateRunTx? && schedule[i].id == id
    && Tx(Exec(EMPTY, schedule[..i]), schedule[i]).Ok?
  }

  /** Every run was created by a transaction of the schedule. */
  lemma {:induction false} EveryRunWasCreated(schedule: seq<Txn>, id: RunId)
    requires id in Exec(EMPTY, schedule).runs
    ensures exists i: nat :: Creates(schedule, i, id)
    decreases |schedule|
  {
    hide Apply;
    var init, t := schedule[..|schedule| - 1], schedule[|schedule| - 1];
    if id in Exec(EMPTY, init).runs {
      EveryRunWasCreated(init, id);
      var i: nat :| Creates(init, i, id);
      assert init[..i] == schedule[..i] && init[i] == schedule[i];
      assert Creates(schedule, i, id);
    } else {
      AppearsByCreation(Exec(EMPTY, init), t, id);
      assert Creates(schedule, |schedule| - 1, id);
    }
  }

  lemma {:induction false} AppearsByCreation(db: Db, t: Txn, id: RunId)
    requires id !in db.runs && id in Apply(db, t).runs
    ensures t.CreateRunTx? && t.id == id && Tx(db, t).Ok?
  {
    hide Claimable, Due, Expired, IsDistinct, Lists, SilentWorkers, SweptWorker, ClaimEach, PromoteEach, ExpireEach,
         LoseEach, CreateRun, Start, Succeed, Fail, Cancel, Note, MoveLeases, AnnounceLost, Released;
    match t {
      case ClaimTx(v, picks, now, until) => if Tx(db, t).Ok? { ClaimKeepsRuns(db, picks, v, until); }
      case PromoteTx(picks, now) => if Tx(db, t).Ok? { PromoteKeepsRuns(db, picks); }
      case ExpireTx(picks, now) => if Tx(db, t).Ok? { ExpireKeepsRuns(db, picks, db, now); }
      case SweepTx(now, s, l, lost, missed) =>
        LoseKeepsRuns(db.(workers := map x | x in db.workers :: SweptWorker(db.workers[x], s, l)), lost, now, missed);
      case _ =>
    }
  }

  lemma {:induction false} ClaimKeepsRuns(db: Db, picks: seq<Pick>, w: WorkerId, until: Time)
    requires ClaimEach(db, picks, w, until).Ok?
    ensures ClaimEach(db, picks, w, until).value.runs.Keys == db.runs.Keys
    decreases |picks|
  {
    hide Claim;
    if picks != [] {
      var next := OnRun(db, picks[0].0, Claim(db.runs[picks[0].0], picks[0].1, w, until)).value;
      ClaimKeepsRuns(next, picks[1..], w, until);
    }
  }

  lemma {:induction false} PromoteKeepsRuns(db: Db, picks: seq<Pick>)
    requires PromoteEach(db, picks).Ok?
    ensures PromoteEach(db, picks).value.runs.Keys == db.runs.Keys
    decreases |picks|
  {
    hide Promote;
    if picks != [] {
      PromoteKeepsRuns(OnRun(db, picks[0].0, Promote(db.runs[picks[0].0], picks[0].1)).value, picks[1..]);
    }
  }

  lemma {:induction false} ExpireKeepsRuns(db: Db, picks: seq<Pick>, snap: Db, now: Time)
    requires ExpireEach(db, picks, snap, now).Ok?
    ensures ExpireEach(db, picks, snap, now).value.runs.Keys == db.runs.Keys
    decreases |picks|
  {
    hide Expire;
    if picks != [] {
      var (id, n) := picks[0];
      var next := OnRun(db, id, Expire(db.runs[id], n, RowAt(snap, picks[0]), now)).value;
      ExpireKeepsRuns(next, picks[1..], snap, now);
    }
  }

  lemma {:induction false} LoseKeepsRuns(db: Db, lost: seq<WorkerId>, now: Time, missed: int)
    ensures LoseEach(db, lost, now, missed).runs.Keys == db.runs.Keys
    decreases |lost|
  {
    hide MoveLeases, AnnounceLost, Released;
    if lost != [] { LoseKeepsRuns(LoseWorker(db, lost[0], now, missed), lost[1..], now, missed); }
  }

  /**
   Replay never forgets how a run was created: in every later state it yields the name, version and
   hash of the definition, and the scenario and seed, that the creating transaction carried.
   */
  lemma {:induction false} CreationRemembered(schedule: seq<Txn>, i: nat, id: RunId)
    requires Creates(schedule, i, id)
    ensures id in Exec(EMPTY, schedule).runs
    ensures var (r, t) := (RunAt(schedule, id), schedule[i]);
            && r.def == t.def && t.workflowHash == r.def.hash
            && Fold(r.journal).Ok?
            && var s := Fold(r.journal).value;
            && s.workflow == r.def.name && s.version == r.def.version && s.definitionHash == r.def.hash
            && s.scenario == t.scenario && s.seed == t.seed
  {
    hide Exec, RunInv, CreateRun, Fold, Legal, Tells, Evolves;
    var t, before := schedule[i], schedule[..i];
    ExecOne(before, t);
    assert before + [t] == schedule[..i + 1] && schedule[..i + 1] + schedule[i + 1..] == schedule;
    LaterEvolves(before + [t], schedule[i + 1..], id);
    CreationEffect(t.def, t.workflowHash, t.scenario, t.seed, t.now);
    var made := RunAt(before + [t], id);
    Associates([("", RUN_CREATED(t.def.name, t.def.version, t.def.hash, t.scenario, t.seed))],
               RootStory(t.def.steps), [("", RUN_QUEUED(|t.def.steps|))]);
    FirstTold(made, t.def, RUN_CREATED(t.def.name, t.def.version, t.def.hash, t.scenario, t.seed),
              RootStory(t.def.steps) + [("", RUN_QUEUED(|t.def.steps|))]);
    KeepsFirst(made, RunAt(schedule, id));
    HistoriesAreLegal(schedule, id, |RunAt(schedule, id).journal|);
    assert RunAt(schedule, id).journal[..|RunAt(schedule, id).journal|] == RunAt(schedule, id).journal;
    HeaderIsFirst(RunAt(schedule, id).def, RunAt(schedule, id).journal);
  }

  lemma FirstTold(r: Run, d: Definition, p: Payload, rest: seq<Told>)
    requires Tells(NewRun(d), r, [("", p)] + rest)
    ensures r.journal != [] && r.journal[0].payload == p
  {
    assert Says(r.journal[0], ([("", p)] + rest)[0]);
  }

  lemma KeepsFirst(r: Run, r': Run)
    requires Evolves(r, r') && r.journal != []
    ensures r'.journal != [] && r'.journal[0] == r.journal[0] && r'.def == r.def
  {
  }

  // ---------------------------------------------------------------- when a run starts

  function StartOf(e: Event): Option<(Name, int)> {
    if e.payload.TASK_STARTED? then Some((e.task, e.payload.attempt)) else None
  }

  function RunStartOf(e: Event): Option<Payload> {
    if e.payload.RUN_STARTED? then Some(e.payload) else None
  }

  /**
   The recorded attempts are those the journal says started; the run is RUNNING exactly once there
   is one; and it was told so exactly once.
   */
  ghost predicate Begun(r: Run) {
    && (forall a :: a in r.attempts <==> a in Collect(r.journal, StartOf))
    && (r.status.Open() ==> (r.status.RunRunning? <==> r.attempts != {}))
    && |Collect(r.journal, RunStartOf)| == if r.attempts == {} then 0 else 1
  }

  /** Nothing has started between `r` and `r'`. */
  ghost predicate Quiet(r: Run, r': Run) {
    && r'.attempts == r.attempts
    && (r'.status == r.status || r'.status.Terminal())
    && Collect(r'.journal, StartOf) == Collect(r.journal, StartOf)
    && Collect(r'.journal, RunStartOf) == Collect(r.journal, RunStartOf)
  }

  predicate CalmStory(told: seq<Told>) {
    forall i :: 0 <= i < |told| ==> !told[i].1.TASK_STARTED? && !told[i].1.RUN_STARTED?
  }

  lemma QuietKeeps(r: Run, r': Run)
    requires Begun(r) && Quiet(r, r')
    ensures Begun(r')
  {
    hide Collect;
  }

  lemma QuietTransitive(a: Run, b: Run, c: Run)
    requires Quiet(a, b) && Quiet(b, c)
    ensures Quiet(a, c)
  {
    hide Collect;
  }

  lemma {:induction false} NothingStarts(events: seq<Event>)
    requires forall i :: 0 <= i < |events| ==> !events[i].payload.TASK_STARTED? && !events[i].payload.RUN_STARTED?
    ensures Collect(events, StartOf) == [] && Collect(events, RunStartOf) == []
    decreases |events|
  {
    if events != [] { NothingStarts(events[1..]); }
  }

  lemma CalmIsQuiet(r: Run, r': Run, told: seq<Told>)
    requires Tells(r, r', told) && CalmStory(told) && r'.attempts == r.attempts
    requires r'.status == r.status || r'.status.Terminal()
    ensures Quiet(r, r')
  {
    hide Collect;
    var more := r'.journal[|r.journal|..];
    assert r'.journal == r.journal + more;
    forall i | 0 <= i < |more| ensures !more[i].payload.TASK_STARTED? && !more[i].payload.RUN_STARTED? {
      assert Says(r'.journal[|r.journal| + i], told[i]);
    }
    NothingStarts(more);
    CollectConcat(r.journal, more, StartOf);
    CollectConcat(r.journal, more, RunStartOf);
  }

  // ------------------------------------------------ stories in which nothing starts

  lemma {:induction false} ReadyIsCalm(r: Run, n: Name, names: seq<Name>)
    ensures CalmStory(ReadyStory(r, n, names))
    decreases |names|
  {
    hide BecomesReady;
    if names != [] { ReadyIsCalm(r, n, names[1..]); }
  }

  lemma {:induction false} BurialIsCalm(r: Run, names: seq<Name>, reason: string)
    ensures CalmStory(BurialStory(r, names, reason))
    decreases |names|
  {
    if names != [] { BurialIsCalm(r, names[1..], reason); }
  }

  lemma {:induction false} RootsAreCalm(steps: seq<Step>)
    ensures CalmStory(RootStory(steps))
    decreases |steps|
  {
    if steps != [] { RootsAreCalm(steps[1..]); }
  }

  lemma {:induction false} BatchIsCalm(db: Db, picks: seq<Pick>, id: RunId)
    requires forall p :: p in picks ==> Exists(db, p)
    ensures CalmStory(ClaimStory(db, picks, id)) && CalmStory(PromotionStory(db, picks, id))
    decreases |picks|
  {
    if picks != [] {
      assert picks[0] in picks;
      BatchIsCalm(db, picks[1..], id);
    }
  }

  lemma CalmBoth(a: seq<Told>, b: seq<Told>)
    requires CalmStory(a) && CalmStory(b)
    ensures CalmStory(a + b)
  {
  }

  lemma VerdictIsCalm(r: Run)
    ensures CalmStory(VerdictStory(r))
  {
  }

  // ------------------------------------------------ transactions in which nothing starts

  lemma ConcludedStatus(r: Run, r': Run, letters: map<Name, int>, artifacts: map<Name, map<string, Artifact>>)
    requires Concluded(r, r', letters, artifacts)
    ensures r'.attempts == r.attempts && (r'.status == r.status || r'.status.Terminal())
  {
    assert Apart(r').attempts == r'.attempts && Apart(r').status == r'.status;
  }

  lemma {:induction false} SuccessIsQuiet(r: Run, n: Name, w: WorkerId, k: int, output: string,
                                          artifacts: seq<Artifact>, now: Time)
    requires RunInv(r) && Succeed(r, n, w, k, output, artifacts, now).Ok?
    ensures Quiet(r, Succeed(r, n, w, k, output, artifacts, now).value)
  {
    hide RunInv, Succeed, Tells, Concluded, SucceededRows, ReadyStory, VerdictStory, Quiet, Dependents;
    SuccessEffect(r, n, w, k, output, artifacts, now);
    var r' := Succeed(r, n, w, k, output, artifacts, now).value;
    var told, ready := [(n, TASK_SUCCEEDED(k, output, artifacts))], ReadyStory(r, n, Dependents(r.def, n));
    ReadyIsCalm(r, n, Dependents(r.def, n));
    VerdictIsCalm(r');
    CalmBoth(told, ready);
    CalmBoth(told + ready, VerdictStory(r'));
    ConcludedStatus(r, r', r.deadLetters, r.artifacts[n := ArtifactsOf(r, n) + LastByName(artifacts)]);
    CalmIsQuiet(r, r', told + ready + VerdictStory(r'));
  }

  lemma {:induction false} DeathIsQuiet(r: Run, r': Run, n: Name, k: int, told: seq<Told>)
    requires Died(r, r', n, k, told) && CalmStory(told)
    ensures Quiet(r, r')
  {
    hide Tells, Concluded, BuriedRows, BurialStory, VerdictStory, Quiet, Descendants, Letters;
    var burials := BurialStory(r, Descendants(r.def, n), Upstream(n));
    BurialIsCalm(r, Descendants(r.def, n), Upstream(n));
    VerdictIsCalm(r');
    CalmBoth(told, burials);
    CalmBoth(told + burials, VerdictStory(r'));
    ConcludedStatus(r, r', Letters(r, n, k), r.artifacts);
    CalmIsQuiet(r, r', told + burials + VerdictStory(r'));
  }

  lemma {:induction false} FailureIsQuiet(r: Run, n: Name, w: WorkerId, k: int, error: string, permanent: bool,
                                          retryAt: Time)
    requires RunInv(r) && Fail(r, n, w, k, error, permanent, retryAt).Ok?
    ensures Quiet(r, Fail(r, n, w, k, error, permanent, retryAt).value)
  {
    hide RunInv, Fail, Tells, Died, Quiet, MaxAttempts, Shortened, FinalReason;
    FailureEffect(r, n, w, k, error, permanent, retryAt);
    var r' := Fail(r, n, w, k, error, permanent, retryAt).value;
    if !permanent && k < MaxAttempts(r.def, n) {
      assert Apart(r').attempts == r'.attempts && Apart(r').status == r'.status;
      CalmIsQuiet(r, r', [(n, TASK_FAILED(k, Shortened(error), true)), (n, TASK_RETRY_SCHEDULED(k, k + 1))]);
    } else {
      DeathIsQuiet(r, r', n, k, [(n, TASK_FAILED(k, Shortened(error), false)),
                                 (n, TASK_DEAD_LETTERED(k, FinalReason(permanent, error)))]);
    }
  }

  lemma {:induction false} ExpiryIsQuiet(r: Run, n: Name, now: Time)
    requires RunInv(r) && n in r.tasks && r.tasks[n].status.Holds()
    ensures Expire(r, n, r.tasks[n], now).Ok? && Quiet(r, Expire(r, n, r.tasks[n], now).value)
  {
    hide RunInv, Expire, Tells, Died, Quiet, MaxAttempts;
    ExpiryEffect(r, n, now);
    var r', k := Expire(r, n, r.tasks[n], now).value, r.tasks[n].attempt;
    assert Apart(r').attempts == r'.attempts && Apart(r').status == r'.status;
    if r.completed {
      CalmIsQuiet(r, r', []);
    } else if k < MaxAttempts(r.def, n) {
      CalmIsQuiet(r, r', [(n, TASK_LEASE_EXPIRED(k)), (n, TASK_REQUEUED(k, k + 1))]);
    } else {
      DeathIsQuiet(r, r', n, k, [(n, TASK_LEASE_EXPIRED(k)),
                                 (n, TASK_DEAD_LETTERED(k, "lease expired with no attempts remaining"))]);
    }
  }

  lemma CancelIsQuiet(r: Run, reason: string, now: Time)
    requires Cancel(r, reason, now).Ok?
    ensures Quiet(r, Cancel(r, reason, now).value)
  {
    hide Cancel, Tells, Quiet;
    CancelEffect(r, reason, now);
    var r' := Cancel(r, reason, now).value;
    assert Apart(r').attempts == r'.attempts && Apart(r').status == r'.status;
    CalmIsQuiet(r, r', [("", RUN_CANCELLED(reason))]);
  }

  lemma NoteIsQuiet(r: Run, n: Name, p: Payload)
    requires Note(r, n, p).Ok?
    ensures Quiet(r, Note(r, n, p).value)
  {
    hide Note, Tells, Quiet;
    NoteEffect(r, n, p);
    var r' := Note(r, n, p).value;
    assert Apart(r').attempts == r'.attempts && Apart(r').status == r'.status;
    CalmIsQuiet(r, r', [(n, p)]);
  }

  /** Nothing starts in any run that was there before. */
  ghost predicate QuietDb(db: Db, db': Db) {
    db'.runs.Keys == db.runs.Keys && forall id :: id in db.runs ==> Quiet(db.runs[id], db'.runs[id])
  }

  lemma SameRunsQuiet(db: Db, db': Db)
    requires db'.runs == db.runs
    ensures QuietDb(db, db')
  {
    hide Collect;
  }

  lemma OneRunQuiet(db: Db, id: RunId, r': Run)
    requires id in db.runs && Quiet(db.runs[id], r')
    ensures QuietDb(db, db.(runs := db.runs[id := r']))
  {
    hide Collect;
  }

  lemma QuietDbTransitive(a: Db, b: Db, c: Db)
    requires QuietDb(a, b) && QuietDb(b, c)
    ensures QuietDb(a, c)
  {
    hide Quiet;
    forall id | id in a.runs ensures Quiet(a.runs[id], c.runs[id]) {
      QuietTransitive(a.runs[id], b.runs[id], c.runs[id]);
    }
  }

  lemma {:induction false} ExpiriesAreQuiet(db: Db, picks: seq<Pick>, snap: Db, now: Time)
    requires Inv(db) && IsDistinct(picks) && AsSelected(db, picks, snap)
    ensures ExpireEach(db, picks, snap, now).Ok? && QuietDb(db, ExpireEach(db, picks, snap, now).value)
    decreases |picks|
  {
    hide Evolves, RunInv, IsDistinct, Expire, Quiet;
    ExpireBatch(db, picks, snap, now);
    if picks == [] {
      SameRunsQuiet(db, db);
    } else {
      var (id, n) := picks[0];
      assert picks[0] in picks;
      var r := db.runs[id];
      ExpireKeeps(r, n, now);
      ExpireEvolves(r, n, now);
      ExpiryIsQuiet(r, n, now);
      var out := Expire(r, n, r.tasks[n], now);
      OneRunGood(db, id, out);
      var next := OnRun(db, id, out).value;
      OneRunQuiet(db, id, out.value);
      DistinctRest(picks);
      forall p | p in picks[1..] ensures Exists(next, p) && RowAt(next, p) == RowAt(snap, p) {
        assert p in picks && p != picks[0];
      }
      ExpiriesAreQuiet(next, picks[1..], snap, now);
      QuietDbTransitive(db, next, ExpireEach(db, picks, snap, now).value);
    }
  }

  lemma {:induction false} ClaimsAreQuiet(db: Db, picks: seq<Pick>, w: WorkerId, until: Time)
    requires ClaimEach(db, picks, w, until).Ok? && IsDistinct(picks) && forall p :: p in picks ==> Exists(db, p)
    ensures QuietDb(db, ClaimEach(db, picks, w, until).value)
  {
    hide ClaimEach, IsDistinct, Tells, Quiet, ClaimStory;
    ClaimKeepsRuns(db, picks, w, until);
    forall id | id in db.runs ensures Quiet(db.runs[id], ClaimEach(db, picks, w, until).value.runs[id]) {
      var r' := ClaimEach(db, picks, w, until).value.runs[id];
      ClaimTells(db, picks, w, until, id);
      assert Apart(r').attempts == r'.attempts && Apart(r').status == r'.status;
      BatchIsCalm(db, picks, id);
      CalmIsQuiet(db.runs[id], r', ClaimStory(db, picks, id));
    }
  }

  lemma {:induction false} PromotionsAreQuiet(db: Db, picks: seq<Pick>)
    requires PromoteEach(db, picks).Ok? && IsDistinct(picks) && forall p :: p in picks ==> Exists(db, p)
    ensures QuietDb(db, PromoteEach(db, picks).value)
  {
    hide PromoteEach, IsDistinct, Tells, Quiet, PromotionStory;
    PromoteKeepsRuns(db, picks);
    forall id | id in db.runs ensures Quiet(db.runs[id], PromoteEach(db, picks).value.runs[id]) {
      var r' := PromoteEach(db, picks).value.runs[id];
      PromotionTells(db, picks, id);
      assert Apart(r').attempts == r'.attempts && Apart(r').status == r'.status;
      BatchIsCalm(db, picks, id);
      CalmIsQuiet(db.runs[id], r', PromotionStory(db, picks, id));
    }
  }

  lemma {:induction false} LossesAreQuiet(db: Db, lost: seq<WorkerId>, now: Time, missed: int)
    ensures QuietDb(db, LoseEach(db, lost, now, missed))
  {
    hide LoseEach, Tells, Quiet, LossStory;
    LoseKeepsRuns(db, lost, now, missed);
    forall id | id in db.runs ensures Quiet(db.runs[id], LoseEach(db, lost, now, missed).runs[id]) {
      var r' := LoseEach(db, lost, now, missed).runs[id];
      LossesEffect(db, lost, now, missed, id);
      assert Apart(r').attempts == r'.attempts && Apart(r').status == r'.status;
      LossesCounted(db, db.runs[id], lost, missed);
      CalmIsQuiet(db.runs[id], r', LossStory(db, db.runs[id], lost, missed));
    }
  }

  lemma RenewalIsQuiet(db: Db, w: WorkerId, tasks: set<Pick>, deadline: Time)
    ensures QuietDb(db, Renew(db, w, tasks, deadline))
  {
    hide Collect;
  }

  lemma {:induction false} RetirementIsQuiet(db: Db, t: Txn)
    requires t.RetireTx?
    ensures QuietDb(db, Apply(db, t))
  {
    hide QuietDb, LoseWorker, Released, ReleaseLeases, AnnounceWorkerLost;
    if t.w in db.workers && Alive(db.workers[t.w]) {
      var stopped := db.(workers := db.workers[t.w := db.workers[t.w].(status := WorkerStopped)]);
      RetiredRuns(db, t);
      SameRunsQuiet(db, stopped);
      LossesAreQuiet(stopped, [t.w], t.now, t.missedBeats);
      assert [t.w][1..] == [];
      assert LoseEach(stopped, [t.w], t.now, t.missedBeats) == LoseWorker(stopped, t.w, t.now, t.missedBeats);
      QuietDbTransitive(db, stopped, Apply(db, t));
    } else {
      SameRunsQuiet(db, db);
    }
  }

  // ------------------------------------------------ the two that are not quiet

  lemma {:induction false} StartBegins(r: Run, n: Name, w: WorkerId, k: int, handler: string)
    requires RunInv(r) && Begun(r) && Start(r, n, w, k, handler).Ok?
    ensures Begun(Start(r, n, w, k, handler).value)
  {
    hide RunInv, Start, Tells, Collect;
    StartEffect(r, n, w, k, handler);
    HasTasks(r);
    var r' := Start(r, n, w, k, handler).value;
    assert Apart(r').attempts == r'.attempts && Apart(r').status == r'.status;
    var told := [(n, TASK_STARTED(k, handler))] + if r.status.RunQueued? then [("", RUN_STARTED)] else [];
    StartsCollected(r, r', n, k, handler, told);
    StillOpen(r, n, w, k, handler);
    assert (n, k) in r'.attempts;
  }

  lemma StillOpen(r: Run, n: Name, w: WorkerId, k: int, handler: string)
    requires Start(r, n, w, k, handler).Ok? && (r.completed <==> r.status.Terminal()) && !r.status.RunCreated?
    ensures r.status.Open()
  {
  }

  lemma {:induction false} StartsCollected(r: Run, r': Run, n: Name, k: int, handler: string, told: seq<Told>)
    requires Tells(r, r', told)
    requires told == [(n, TASK_STARTED(k, handler))] + if r.status.RunQueued? then [("", RUN_STARTED)] else []
    ensures Collect(r'.journal, StartOf) == Collect(r.journal, StartOf) + [(n, k)]
    ensures |Collect(r'.journal, RunStartOf)| ==
            |Collect(r.journal, RunStartOf)| + if r.status.RunQueued? then 1 else 0
  {
    hide Collect;
    var j := |r.journal|;
    assert Says(r'.journal[j], told[0]);
    CollectSnoc(r.journal, r'.journal[j], StartOf, ("", 0));
    CollectSnoc(r.journal, r'.journal[j], RunStartOf, RUN_STARTED);
    if r.status.RunQueued? {
      assert Says(r'.journal[j + 1], told[1]);
      CollectSnoc(r.journal + [r'.journal[j]], r'.journal[j + 1], StartOf, ("", 0));
      CollectSnoc(r.journal + [r'.journal[j]], r'.journal[j + 1], RunStartOf, RUN_STARTED);
      assert r'.journal == r.journal + [r'.journal[j]] + [r'.journal[j + 1]];
    } else {
      assert r'.journal == r.journal + [r'.journal[j]];
    }
  }

  lemma {:induction false} CreationBegins(d: Definition, hash: string, scenario: string, seed: int, now: Time)
    requires Sound(d) && CreateRun(d, hash, scenario, seed, now).Ok?
    ensures Begun(CreateRun(d, hash, scenario, seed, now).value)
  {
    hide CreateRun, Tells, Collect, RootStory, Quiet, Sound;
    CreationEffect(d, hash, scenario, seed, now);
    var r, p := CreateRun(d, hash, scenario, seed, now).value, RUN_CREATED(d.name, d.version, d.hash, scenario, seed);
    assert Apart(r).attempts == r.attempts && Apart(r).status == r.status;
    RootsAreCalm(d.steps);
    CalmBoth([("", p)], RootStory(d.steps));
    CalmBoth([("", p)] + RootStory(d.steps), [("", RUN_QUEUED(|d.steps|))]);
    var queued := NewRun(d).(status := RunQueued);
    SameJournalTells(NewRun(d), queued, r, [("", p)] + RootStory(d.steps) + [("", RUN_QUEUED(|d.steps|))]);
    CalmIsQuiet(queued, r, [("", p)] + RootStory(d.steps) + [("", RUN_QUEUED(|d.steps|))]);
    NothingCollected(StartOf);
    NothingCollected(RunStartOf);
    QuietKeeps(queued, r);
  }

  lemma SameJournalTells(a: Run, b: Run, r': Run, told: seq<Told>)
    requires Tells(a, r', told) && b.journal == a.journal
    ensures Tells(b, r', told)
  {
  }

  // ------------------------------------------------ every schedule

  ghost predicate AllBegun(db: Db) {
    forall id :: id in db.runs ==> Begun(db.runs[id])
  }

  lemma QuietDbKeeps(db: Db, db': Db)
    requires AllBegun(db) && QuietDb(db, db')
    ensures AllBegun(db')
  {
    hide Begun, Quiet;
    forall id | id in db'.runs ensures Begun(db'.runs[id]) { QuietKeeps(db.runs[id], db'.runs[id]); }
  }

  lemma {:induction false} OneRunBegins(db: Db, t: Txn)
    requires Inv(db) && AllBegun(db) && Tx(db, t).Ok? && (OneRunTx(t) || t.CreateRunTx?)
    ensures AllBegun(Tx(db, t).value)
  {
    hide RunInv, Begun, Quiet, Start, Succeed, Fail, Cancel, Note, CreateRun, QuietDb;
    match t {
      case StartTx(id, n, w, k, handler) => StartBegins(db.runs[id], n, w, k, handler);
      case SucceedTx(id, n, w, k, output, artifacts, now) =>
        SuccessIsQuiet(db.runs[id], n, w, k, output, artifacts, now);
        QuietKeeps(db.runs[id], Succeed(db.runs[id], n, w, k, output, artifacts, now).value);
      case FailTx(id, n, w, k, error, permanent, retryAt) =>
        FailureIsQuiet(db.runs[id], n, w, k, error, permanent, retryAt);
        QuietKeeps(db.runs[id], Fail(db.runs[id], n, w, k, error, permanent, retryAt).value);
      case CancelTx(id, reason, now) =>
        CancelIsQuiet(db.runs[id], reason, now);
        QuietKeeps(db.runs[id], Cancel(db.runs[id], reason, now).value);
      case NoteTx(id, n, p) =>
        NoteIsQuiet(db.runs[id], n, p);
        QuietKeeps(db.runs[id], Note(db.runs[id], n, p).value);
      case CreateRunTx(id, d, hash, scenario, seed, now) => CreationBegins(d, hash, scenario, seed, now);
    }
  }

  lemma {:induction false} BatchIsQuiet(db: Db, t: Txn)
    requires Inv(db) && Tx(db, t).Ok? && !OneRunTx(t) && !t.CreateRunTx?
    ensures QuietDb(db, Tx(db, t).value)
  {
    hide Inv, QuietDb, ClaimEach, PromoteEach, ExpireEach, LoseEach, Renew, Retire, Lists, SilentWorkers, IsDistinct,
         SweptWorker;
    match t {
      case ClaimTx(w, picks, now, until) => ClaimsAreQuiet(db, picks, w, until);
      case PromoteTx(picks, now) => PromotionsAreQuiet(db, picks);
      case ExpireTx(picks, now) => ExpiriesAreQuiet(db, picks, db, now);
      case SweepTx(now, s, l, lost, missed) =>
        var swept := db.(workers := map w | w in db.workers :: SweptWorker(db.workers[w], s, l));
        SameRunsQuiet(db, swept);
        LossesAreQuiet(swept, lost, now, missed);
        QuietDbTransitive(db, swept, LoseEach(swept, lost, now, missed));
      case RetireTx(w, now, missed) => RetirementIsQuiet(db, t);
      case RenewTx(w, tasks, deadline) => RenewalIsQuiet(db, w, tasks, deadline);
      case RegisterTx(w, now) => SameRunsQuiet(db, Tx(db, t).value);
      case HeartbeatTx(w, now) => SameRunsQuiet(db, Tx(db, t).value);
    }
  }

  lemma {:induction false} ExecBegins(schedule: seq<Txn>)
    ensures AllBegun(Exec(EMPTY, schedule))
    decreases |schedule|
  {
    hide Tx, AllBegun, Inv;
    if schedule == [] {
      NoneBegun();
    } else {
      var init, t := schedule[..|schedule| - 1], schedule[|schedule| - 1];
      var db := Exec(EMPTY, init);
      ExecBegins(init);
      Reachable(init);
      if Tx(db, t).Ok? {
        if OneRunTx(t) || t.CreateRunTx? {
          OneRunBegins(db, t);
        } else {
          BatchIsQuiet(db, t);
          QuietDbKeeps(db, Tx(db, t).value);
        }
      }
    }
  }

  lemma NoneBegun()
    ensures AllBegun(EMPTY)
  {
  }

  /**
   In every reachable state the recorded attempts of a run are exactly those its history says
   started; an open run is RUNNING exactly once there is one; and its history holds exactly one
   RUN_STARTED from then on, and none before.
   */
  lemma {:induction false} RunningIff(schedule: seq<Txn>, id: RunId)
    requires id in Exec(EMPTY, schedule).runs
    ensures var r := RunAt(schedule, id);
            && (forall a :: a in r.attempts <==> a in Collect(r.journal, StartOf))
            && (!r.completed ==> (r.status.RunRunning? <==> r.attempts != {}))
            && |Collect(r.journal, RunStartOf)| == if r.attempts == {} then 0 else 1
  {
    hide Exec, RunInv, Collect;
    ExecBegins(schedule);
    RunAtInv(schedule, id);
    HasTasks(RunAt(schedule, id));
  }

  /**
   Nothing succeeds without having started: the attempt a task succeeded on is on record, and a run
   that succeeded has been RUNNING, whatever the transition table allows.
   */
  lemma {:induction false} SuccessesStarted(schedule: seq<Txn>, id: RunId)
    requires id in Exec(EMPTY, schedule).runs
    ensures var r := RunAt(schedule, id);
            && (!r.status.RunCancelled? ==>
                  forall n :: n in r.tasks && r.tasks[n].status.TaskSucceeded? ==>
                    (n, r.tasks[n].attempt) in r.attempts)
            && (r.status.RunSucceeded? ==> |Collect(r.journal, RunStartOf)| == 1)
  {
    hide Exec, RunInv, Collect, Fold, Tallied, Conserved;
    var r := RunAt(schedule, id);
    ReplayRefinesEngine(schedule, id);
    RunningIff(schedule, id);
    if !r.status.RunCancelled? {
      forall n | n in r.tasks && r.tasks[n].status.TaskSucceeded? ensures (n, r.tasks[n].attempt) in r.attempts {
        assert r.journal[..|r.journal|] == r.journal;
        AttemptsAddUp(schedule, id, |r.journal|, n, r.tasks[n].attempt);
        WinnerStarted(r.journal, Fold(r.journal).value.tasks[n], n);
      }
    }
    if r.status.RunSucceeded? {
      RunAtInv(schedule, id);
      HasTasks(r);
      VerdictsAreSound(schedule, id);
      var n :| n in r.tasks;
      assert r.tasks[n].status.TaskSucceeded?;
    }
  }

  lemma WinnerStarted(journal: seq<Event>, t: TaskState, n: Name)
    requires Tallied(journal, t, n, t.attempts) && t.status.TaskSucceeded?
    ensures (n, t.attempts) in Collect(journal, StartOf)
  {
    hide Count, Collect;
    StartCollected(journal, n, t.attempts);
  }

  lemma {:induction false} StartCollected(journal: seq<Event>, n: Name, k: int)
    requires Count(journal, Started(n, k)) > 0
    ensures (n, k) in Collect(journal, StartOf)
  {
    hide Collect;
    var init, e := journal[..|journal| - 1], journal[|journal| - 1];
    assert journal == init + [e];
    CollectSnoc(init, e, StartOf, (n, k));
    if !Started(n, k).StatedBy(e) { StartCollected(init, n, k); }
  }

  // ---------------------------------------------------------------- what replay reads of a reachable run

  /**
   Of every reachable run, replay's faults, skipped effects and lost workers are the events that
   report them; a FAILED run says how many of its tasks died, of how many; and every task carries
   the handler of its last start and the error of its last failure, or why it was given up.
   */
  lemma {:induction false} ReplayReads(schedule: seq<Txn>, id: RunId, n: Name)
    requires id in Exec(EMPTY, schedule).runs
    ensures var r := RunAt(schedule, id);
            && Fold(r.journal).Ok?
            && var s := Fold(r.journal).value;
               var t := TaskOf(s, n);
            && ReadsRun(s, r.journal)
            && (r.status.RunFailed? ==>
                  s.failureReason == "tasks dead-lettered: " + Decimal(LostTasks(s)) + " of " + Decimal(|r.def.steps|)
                                     + " tasks did not succeed")
            && t.handler == LastOf(Collect(r.journal, HandlerOf(n)), "")
            && t.error == ErrorText(t.status, Collect(r.journal, FailureOf(n)), Collect(r.journal, BurialOf(n)))
  {
    hide Exec, Fold, Collect, ReadsRun, Legal, ErrorText, Decimal, LostTasks;
    var j := RunAt(schedule, id).journal;
    HistoriesAreLegal(schedule, id, |j|);
    assert j[..|j|] == j;
    ReplayReadsError(RunAt(schedule, id).def, j, n);
    ReplayReadsRun(j);
    ReplayReadsHandler(j, n);
    ReplayRefinesEngine(schedule, id);
    if RunAt(schedule, id).status.RunFailed? { FailureCounts(RunAt(schedule, id).def, j); }
  }
}

/** What no continuation of a schedule can undo: fencing, closed runs, bounded work, lost workers. */
module Futures {
  import opened Common
  import opened Statuses
  import opened Events
  import opened Workflow
  import opened Replay
  import opened History
  import opened Tables
  import opened Invariant
  import opened Steps
  import opened Outcomes
  import opened Recovery
  import opened Evolution
  import opened System
  import opened Guarantees

  /** A schedule's two halves can be executed one after the other. */
  lemma {:induction false} ExecSplit(db: Db, first: seq<Txn>, later: seq<Txn>)
    ensures Exec(db, first + later) == Exec(Exec(db, first), later)
    decreases |later|
  {
    hide Apply;
    if later == [] {
      assert first + later == first;
    } else {
      var init := later[..|later| - 1];
      assert (first + later)[..|first + later| - 1] == first + init;
      ExecSplit(db, first, init);
    }
  }

  /** Whatever happens later, a run only evolves. */
  lemma {:induction false} LaterEvolves(schedule: seq<Txn>, later: seq<Txn>, id: RunId)
    requires id in Exec(EMPTY, schedule).runs
    ensures id in Exec(EMPTY, schedule + later).runs
    ensures Evolves(RunAt(schedule, id), RunAt(schedule + later, id))
  {
    hide Evolves, Exec, Inv;
    Reachable(schedule);
    ExecGood(Exec(EMPTY, schedule), later);
    ExecSplit(EMPTY, schedule, later);
  }

  // ---------------------------------------------------------------- fencing

  /** Attempt `k` is over: a later one was claimed, or this one holds no lease. */
  predicate Spent(row: TaskRow, k: int) {
    row.attempt > k || (row.attempt == k && !row.status.Holds())
  }

  lemma {:induction false} SpentForever(schedule: seq<Txn>, later: seq<Txn>, id: RunId, n: Name, k: int)
    requires id in Exec(EMPTY, schedule).runs && n in RunAt(schedule, id).tasks
    requires Spent(RunAt(schedule, id).tasks[n], k)
    ensures id in Exec(EMPTY, schedule + later).runs && n in RunAt(schedule + later, id).tasks
    ensures Spent(RunAt(schedule + later, id).tasks[n], k)
  {
    hide Exec;
    LaterEvolves(schedule, later, id);
    assert RowEvolves(RunAt(schedule, id).tasks[n], RunAt(schedule + later, id).tasks[n]);
  }

  /**
   Fencing: once an attempt is over, no continuation whatsoever lets any worker start it,
   complete it or fail it; the call reports a lost lease and changes nothing.
   */
  lemma {:induction false} Fencing(schedule: seq<Txn>, later: seq<Txn>, id: RunId, n: Name, k: int, t: Txn)
    requires id in Exec(EMPTY, schedule).runs && n in RunAt(schedule, id).tasks
    requires Spent(RunAt(schedule, id).tasks[n], k)
    requires t.StartTx? || t.SucceedTx? || t.FailTx?
    requires t.id == id && t.n == n && t.k == k
    ensures Tx(Exec(EMPTY, schedule + later), t) == Err(LeaseLost)
    ensures Exec(EMPTY, schedule + later + [t]) == Exec(EMPTY, schedule + later)
  {
    hide Exec;
    SpentForever(schedule, later, id, n, k);
    ExecOne(schedule + later, t);
  }

  lemma {:induction false} ExecOne(schedule: seq<Txn>, t: Txn)
    ensures Exec(EMPTY, schedule + [t]) == Apply(Exec(EMPTY, schedule), t)
  {
    hide Apply;
    assert (schedule + [t])[..|schedule|] == schedule;
  }

  /** The row names this worker and this attempt. */
  predicate OnAttempt(r: Run, n: Name, w: WorkerId, k: int) {
    n in r.tasks && r.tasks[n].worker == Some(w) && r.tasks[n].attempt == k
  }

  lemma HeldByIff(r: Run, n: Name, w: WorkerId, k: int)
    ensures HeldBy(r, n, {TaskLeased}, w, k) <==> OnAttempt(r, n, w, k) && r.tasks[n].status.TaskLeased?
    ensures HeldBy(r, n, {TaskRunning}, w, k) <==> OnAttempt(r, n, w, k) && r.tasks[n].status.TaskRunning?
    ensures HeldBy(r, n, {TaskRunning, TaskLeased}, w, k) <==>
            OnAttempt(r, n, w, k) && (r.tasks[n].status.TaskLeased? || r.tasks[n].status.TaskRunning?)
  {
  }

  /** Every artifact has a digest of 64 lower-case hexadecimal digits and a size that is not negative. */
  predicate WellFormed(artifacts: seq<Artifact>) {
    forall a :: a in artifacts ==>
      && a.size >= 0 && |a.sha256| == 64
      && forall i :: 0 <= i < 64 ==> a.sha256[i] in "0123456789abcdef"
  }

  lemma StorableIff(artifacts: seq<Artifact>)
    ensures Storable(artifacts) <==> WellFormed(artifacts)
  {
    forall c: char ensures c in "0123456789abcdef" <==> '0' <= c <= '9' || 'a' <= c <= 'f' { HexChar(c); }
    if WellFormed(artifacts) {
      forall i | 0 <= i < |artifacts| ensures HexDigest(artifacts[i].sha256) && artifacts[i].size >= 0 {
        assert artifacts[i] in artifacts;
      }
    }
  }

  lemma HexChar(c: char)
    ensures c in "0123456789abcdef" <==> '0' <= c <= '9' || 'a' <= c <= 'f'
  {
    var hex := "0123456789abcdef";
    if '0' <= c <= '9' { assert hex[c as int - '0' as int] == c; }
    if 'a' <= c <= 'f' { assert hex[10 + c as int - 'a' as int] == c; }
  }

  /** How a guarded transaction of a worker ends: not held, closed, or committed. */
  predicate EndsAs(out: Result<Db, Refusal>, held: bool, completed: bool) {
    && (out.Ok? <==> held && !completed)
    && (out == Err(LeaseLost) <==> !held)
    && (out == Err(RunClosed) <==> held && completed)
  }

  /**
   A worker's own calls succeed exactly while it holds that attempt and the run is open. Without
   the attempt they report a lost lease; with it, in a run that has closed meanwhile, they report
   that instead; and they report nothing else but artifacts that cannot be stored.
   */
  lemma {:induction false} WorkerCallsAccepted(schedule: seq<Txn>, id: RunId, n: Name, w: WorkerId, k: int,
                                               text: string, artifacts: seq<Artifact>, flag: bool, at: Time)
    requires id in Exec(EMPTY, schedule).runs
    ensures var (db, r) := (Exec(EMPTY, schedule), RunAt(schedule, id));
            && EndsAs(Tx(db, StartTx(id, n, w, k, text)),
                      OnAttempt(r, n, w, k) && r.tasks[n].status.TaskLeased?, r.completed)
            && EndsAs(Tx(db, FailTx(id, n, w, k, text, flag, at)),
                      OnAttempt(r, n, w, k) && (r.tasks[n].status.TaskLeased? || r.tasks[n].status.TaskRunning?),
                      r.completed)
            && (if WellFormed(artifacts) || !(OnAttempt(r, n, w, k) && r.tasks[n].status.TaskRunning?)
                then EndsAs(Tx(db, SucceedTx(id, n, w, k, text, artifacts, at)),
                            OnAttempt(r, n, w, k) && r.tasks[n].status.TaskRunning?, r.completed)
                else Tx(db, SucceedTx(id, n, w, k, text, artifacts, at)) == Err(ConstraintViolation))
            && (Tx(db, CancelTx(id, text, at)).Ok? <==> !r.completed)
            && (Tx(db, CancelTx(id, text, at)) == Err(RunFinished) <==> r.completed)
  {
    hide Exec, RunInv, Evolves, Start, Succeed, Fail, Cancel, HeldBy, Storable, WellFormed;
    RunAtInv(schedule, id);
    var r := RunAt(schedule, id);
    HeldByIff(r, n, w, k);
    StorableIff(artifacts);
    StartKeeps(r, n, w, k, text);
    SucceedKeeps(r, n, w, k, text, artifacts, at);
    FailKeeps(r, n, w, k, text, flag, at);
    CancelKeeps(r, text, at);
    ClosedIsTerminal(r);
    if Start(r, n, w, k, text).Err? { StartRefusal(r, n, w, k, text); }
    if Succeed(r, n, w, k, text, artifacts, at).Err? { SucceedRefusal(r, n, w, k, text, artifacts, at); }
    if Fail(r, n, w, k, text, flag, at).Err? { FailRefusal(r, n, w, k, text, flag, at); }
    if r.completed { CancelRefusal(r, text, at); }
  }

  lemma ClosedIsTerminal(r: Run)
    requires RunInv(r)
    ensures r.completed <==> r.status.Terminal()
  {
    hide Settled, Mirror, Recorded, Barrier, JournalOk, RowsOk, Sound;
  }

  lemma StartRefusal(r: Run, n: Name, w: WorkerId, k: int, handler: string)
    requires Start(r, n, w, k, handler).Err? && Start(r, n, w, k, handler) != Err(ConcurrentAttempt)
    ensures Start(r, n, w, k, handler) == Err(if HeldBy(r, n, {TaskLeased}, w, k) then RunClosed else LeaseLost)
  {
  }

  lemma SucceedRefusal(r: Run, n: Name, w: WorkerId, k: int, output: string, artifacts: seq<Artifact>, now: Time)
    requires r.completed || !HeldBy(r, n, {TaskRunning}, w, k) || !Storable(artifacts)
    ensures Succeed(r, n, w, k, output, artifacts, now) ==
            Err(if !HeldBy(r, n, {TaskRunning}, w, k) then LeaseLost
                else if !Storable(artifacts) then ConstraintViolation else RunClosed)
  {
    hide Storable, Settle, UnlockDependents, Upsert;
  }

  lemma FailRefusal(r: Run, n: Name, w: WorkerId, k: int, error: string, permanent: bool, retryAt: Time)
    requires r.completed || !HeldBy(r, n, {TaskRunning, TaskLeased}, w, k)
    ensures Fail(r, n, w, k, error, permanent, retryAt) ==
            Err(if HeldBy(r, n, {TaskRunning, TaskLeased}, w, k) then RunClosed else LeaseLost)
  {
    hide TruncateError, AbandonDependents, Settle, WillRetry;
  }

  lemma CancelRefusal(r: Run, reason: string, now: Time)
    requires r.status.Terminal()
    ensures Cancel(r, reason, now) == Err(RunFinished)
  {
  }

  /** A claim batch the database can select is refused only to a worker that never registered. */
  lemma {:induction false} ClaimsCommit(schedule: seq<Txn>, picks: seq<Pick>, w: WorkerId, now: Time, until: Time)
    requires IsDistinct(picks)
    requires forall p :: p in picks ==>
               Exists(Exec(EMPTY, schedule), p) && Claimable(RunAt(schedule, p.0), p.1, now)
    ensures Tx(Exec(EMPTY, schedule), ClaimTx(w, picks, now, until)).Ok? <==>
            picks == [] || w in Exec(EMPTY, schedule).workers
  {
    hide Exec, Inv, IsDistinct, ClaimEach;
    Reachable(schedule);
    ClaimBatch(Exec(EMPTY, schedule), picks, w, until);
  }

  /** No promotion batch is ever aborted half way. */
  lemma {:induction false} PromotionsCommit(schedule: seq<Txn>, picks: seq<Pick>, now: Time)
    requires IsDistinct(picks)
    requires forall p :: p in picks ==> Exists(Exec(EMPTY, schedule), p) && Due(RunAt(schedule, p.0), p.1, now)
    ensures Tx(Exec(EMPTY, schedule), PromoteTx(picks, now)).Ok?
  {
    hide Exec, Inv, IsDistinct, PromoteEach;
    Reachable(schedule);
    PromoteBatch(Exec(EMPTY, schedule), picks);
  }

  /** No expiry batch is ever aborted half way, whatever mix of open and closed runs it holds. */
  lemma {:induction false} ExpiriesCommit(schedule: seq<Txn>, picks: seq<Pick>, now: Time)
    requires IsDistinct(picks)
    requires forall p :: p in picks ==> Exists(Exec(EMPTY, schedule), p) && Expired(RunAt(schedule, p.0), p.1, now)
    ensures Tx(Exec(EMPTY, schedule), ExpireTx(picks, now)).Ok?
  {
    hide Exec, Inv, IsDistinct, ExpireEach;
    Reachable(schedule);
    ExpireBatch(Exec(EMPTY, schedule), picks, Exec(EMPTY, schedule), now);
  }

  // ---------------------------------------------------------------- closed runs

  /** A closed run keeps its verdict and its journal; its rows stay put or, if held, die. */
  lemma {:induction false} ClosedStaysClosed(schedule: seq<Txn>, later: seq<Txn>, id: RunId)
    requires id in Exec(EMPTY, schedule).runs && RunAt(schedule, id).completed
    ensures id in Exec(EMPTY, schedule + later).runs
    ensures var (r, r') := (RunAt(schedule, id), RunAt(schedule + later, id));
            && r'.completed && r'.status == r.status && r'.journal == r.journal
            && r'.deadLetters == r.deadLetters && r'.artifacts == r.artifacts && r'.tasks.Keys == r.tasks.Keys
            && forall n :: n in r.tasks ==> RowFrozen(r.tasks[n], r'.tasks[n])
  {
    hide Exec, RowEvolves, RowFrozen;
    LaterEvolves(schedule, later, id);
  }

  /** A cancelled run replays, for ever after, to its tasks as they stood when it was cancelled. */
  lemma {:induction false} CancelFreezesReplay(schedule: seq<Txn>, later: seq<Txn>, id: RunId, reason: string,
                                               now: Time)
    requires id in Exec(EMPTY, schedule).runs
    requires Tx(Exec(EMPTY, schedule), CancelTx(id, reason, now)).Ok?
    ensures var whole := schedule + [CancelTx(id, reason, now)] + later;
            && id in Exec(EMPTY, whole).runs
            && Fold(RunAt(schedule, id).journal).Ok? && Fold(RunAt(whole, id).journal).Ok?
            && SameStory(RunAt(schedule, id), Fold(RunAt(schedule, id).journal).value)
            && Fold(RunAt(whole, id).journal).value.tasks == Fold(RunAt(schedule, id).journal).value.tasks
            && Fold(RunAt(whole, id).journal).value.status == RunCancelled
  {
    hide Exec, SameStory, RunInv, Evolves, RowFrozen;
    var t := CancelTx(id, reason, now);
    var r := RunAt(schedule, id);
    ReplayRefinesEngine(schedule, id);
    CancelCommits(schedule, id, reason, now);
    ClosedStaysClosed(schedule + [t], later, id);
  }

  lemma {:induction false} CancelCommits(schedule: seq<Txn>, id: RunId, reason: string, now: Time)
    requires id in Exec(EMPTY, schedule).runs
    requires Tx(Exec(EMPTY, schedule), CancelTx(id, reason, now)).Ok?
    ensures !RunAt(schedule, id).status.RunCancelled?
    ensures id in Exec(EMPTY, schedule + [CancelTx(id, reason, now)]).runs
    ensures RunAt(schedule + [CancelTx(id, reason, now)], id).completed
    ensures Fold(RunAt(schedule, id).journal).Ok?
    ensures var r' := RunAt(schedule + [CancelTx(id, reason, now)], id);
            && Fold(r'.journal).Ok? && Fold(r'.journal).value.status == RunCancelled
            && Fold(r'.journal).value.tasks == Fold(RunAt(schedule, id).journal).value.tasks
  {
    hide Exec, Cancel, RunInv, Fold;
    ExecOne(schedule, CancelTx(id, reason, now));
    RunAtInv(schedule, id);
    CancelReplays(RunAt(schedule, id), reason, now);
  }

  lemma {:induction false} CancelReplays(r: Run, reason: string, now: Time)
    requires RunInv(r) && Cancel(r, reason, now).Ok?
    ensures !r.status.RunCancelled? && Cancel(r, reason, now).value.completed
    ensures var r' := Cancel(r, reason, now).value;
            && Fold(r.journal).Ok? && Fold(r'.journal).Ok? && Fold(r'.journal).value.status == RunCancelled
            && Fold(r'.journal).value.tasks == Fold(r.journal).value.tasks
  {
    hide Settled, Mirror, Barrier, RowsOk, Sound, Legal, Fold;
    CancelKeeps(r, reason, now);
    FoldSnoc(r.journal, Event(r.eventSeq + 1, "", Some(PAYLOAD_VERSION), RUN_CANCELLED(reason)));
  }

  // ---------------------------------------------------------------- bounded work

  /** The work left in the tasks of `steps`. */
  function Remaining(r: Run, steps: seq<Step>): int
    decreases |steps|
  {
    if steps == [] then 0
    else (if steps[0].name in r.tasks then Weight(r.tasks[steps[0].name]) else 0) + Remaining(r, steps[1..])
  }

  /** How many tasks of `steps` have another status in `r'` than in `r`. */
  function Changed(r: Run, r': Run, steps: seq<Step>): nat
    decreases |steps|
  {
    if steps == [] then 0
    else
      var n := steps[0].name;
      (if n in r.tasks && n in r'.tasks && r.tasks[n].status != r'.tasks[n].status then 1 else 0)
      + Changed(r, r', steps[1..])
  }

  /** At most six moves for the wait, and five for each attempt. */
  function Budget(d: Definition, steps: seq<Step>): int
    decreases |steps|
  {
    if steps == [] then 0 else 5 * MaxAttempts(d, steps[0].name) + 6 + Budget(d, steps[1..])
  }

  /** Task status changes of run `id`, summed over every transaction of `later`. */
  function Churn(db: Db, id: RunId, later: seq<Txn>): nat
    decreases |later|
  {
    if later == [] then 0
    else
      var before := Exec(db, later[..|later| - 1]);
      var after := Apply(before, later[|later| - 1]);
      Churn(db, id, later[..|later| - 1])
      + (if id in before.runs && id in after.runs
         then Changed(before.runs[id], after.runs[id], before.runs[id].def.steps) else 0)
  }

  lemma {:induction false} ChangesCost(r: Run, r': Run, steps: seq<Step>)
    requires Evolves(r, r')
    ensures Changed(r, r', steps) + Remaining(r', steps) <= Remaining(r, steps)
    decreases |steps|
  {
    if steps != [] {
      ChangesCost(r, r', steps[1..]);
      assert steps[0].name in r.tasks ==> RowEvolves(r.tasks[steps[0].name], r'.tasks[steps[0].name]);
    }
  }

  lemma {:induction false} RemainingBounds(r: Run, steps: seq<Step>)
    requires forall n :: n in r.tasks ==> RowOk(r.tasks[n], MaxAttempts(r.def, n))
    requires forall i :: 0 <= i < |steps| ==> steps[i].name in r.tasks
    ensures 0 <= Remaining(r, steps) <= Budget(r.def, steps)
    decreases |steps|
  {
    hide MaxAttempts;
    if steps != [] {
      RemainingBounds(r, steps[1..]);
      assert RowOk(r.tasks[steps[0].name], MaxAttempts(r.def, steps[0].name));
    }
  }

  lemma RunRemainingBounds(r: Run)
    requires RunInv(r)
    ensures 0 <= Remaining(r, r.def.steps) <= Budget(r.def, r.def.steps)
  {
    hide Remaining, Budget, RowOk, Settled, Mirror, Barrier, JournalOk, UniqueNames, Resolved, Acyclic, MaxAttempts;
    assert forall i :: 0 <= i < |r.def.steps| ==> r.def.steps[i].name in Names(r.def);
    RemainingBounds(r, r.def.steps);
  }

  lemma {:induction false} ChurnSpends(db: Db, id: RunId, later: seq<Txn>)
    requires Inv(db) && id in db.runs
    ensures id in Exec(db, later).runs
    ensures var (r, r') := (db.runs[id], Exec(db, later).runs[id]);
            Churn(db, id, later) + Remaining(r', r.def.steps) <= Remaining(r, r.def.steps)
    decreases |later|
  {
    hide Inv, Evolves, Apply, Remaining, Changed;
    if later != [] {
      var init := later[..|later| - 1];
      ChurnSpends(db, id, init);
      ExecGood(db, init);
      var before := Exec(db, init);
      ApplyGood(before, later[|later| - 1]);
      SameDefinition(db.runs[id], before.runs[id]);
      ChangesCost(before.runs[id], Exec(db, later).runs[id], db.runs[id].def.steps);
    }
  }

  lemma SameDefinition(r: Run, r': Run)
    requires Evolves(r, r')
    ensures r'.def == r.def
  {
  }

  /**
   Bounded work: from any reachable state on, all schedules together can change a run's task
   statuses at most 5 x max_attempts + 6 times per step, and every change uses budget up.
   */
  lemma {:induction false} BoundedWork(schedule: seq<Txn>, later: seq<Txn>, id: RunId)
    requires id in Exec(EMPTY, schedule).runs
    ensures id in Exec(EMPTY, schedule + later).runs
    ensures var (r, r') := (RunAt(schedule, id), RunAt(schedule + later, id));
            && Churn(Exec(EMPTY, schedule), id, later) + Remaining(r', r.def.steps) <= Remaining(r, r.def.steps)
            && Churn(Exec(EMPTY, schedule), id, later) <= Budget(r.def, r.def.steps)
  {
    hide Exec, Inv, RunInv, Evolves, Remaining, Budget, Churn;
    Reachable(schedule);
    ChurnSpends(Exec(EMPTY, schedule), id, later);
    ExecSplit(EMPTY, schedule, later);
    RunAtInv(schedule, id);
    RunAtInv(schedule + later, id);
    LaterEvolves(schedule, later, id);
    SameDefinition(RunAt(schedule, id), RunAt(schedule + later, id));
    RunRemainingBounds(RunAt(schedule, id));
    RunRemainingBounds(RunAt(schedule + later, id));
  }

  // ---------------------------------------------------------------- timing

  /** A committed failure that will be retried queues the task for `retryAt`. */
  lemma RetryQueues(r: Run, n: Name, w: WorkerId, k: int, error: string, retryAt: Time)
    requires Fail(r, n, w, k, error, false, retryAt).Ok? && k < MaxAttempts(r.def, n)
    ensures var row := Fail(r, n, w, k, error, false, retryAt).value.tasks;
            n in row && row[n].attempt == k && row[n].status.TaskRetrying? && row[n].scheduledAt == retryAt
  {
    hide MaxAttempts, TruncateError;
  }

  /**
   Backoff is respected: until the next attempt has been claimed, no clock reading before
   `retryAt` makes the task claimable or due, whatever happens in between.
   */
  lemma {:induction false} BackoffRespected(schedule: seq<Txn>, later: seq<Txn>, t: Txn, now: Time)
    requires t.FailTx? && !t.permanent && Tx(Exec(EMPTY, schedule), t).Ok?
    requires t.id in Exec(EMPTY, schedule).runs && t.k < MaxAttempts(RunAt(schedule, t.id).def, t.n)
    ensures t.id in Exec(EMPTY, schedule + [t] + later).runs
    ensures var r := RunAt(schedule + [t] + later, t.id);
            && t.n in r.tasks && r.tasks[t.n].attempt >= t.k
            && (r.tasks[t.n].attempt == t.k && now < t.retryAt ==> !Claimable(r, t.n, now) && !Due(r, t.n, now))
  {
    hide Exec, Fail, MaxAttempts;
    ExecOne(schedule, t);
    RetryQueues(RunAt(schedule, t.id), t.n, t.w, t.k, t.error, t.retryAt);
    LaterEvolves(schedule + [t], later, t.id);
    assert RowEvolves(RunAt(schedule + [t], t.id).tasks[t.n], RunAt(schedule + [t] + later, t.id).tasks[t.n]);
  }

  /**
   At the moment it commits, a cancellation leaves every task ended or, if held, due for the next
   sweep; a renewal may still put that sweep off, but nothing the holder reports will commit.
   */
  lemma {:induction false} CancelStopsWork(schedule: seq<Txn>, id: RunId, reason: string, now: Time, n: Name)
    requires id in Exec(EMPTY, schedule).runs && n in RunAt(schedule, id).tasks
    requires Tx(Exec(EMPTY, schedule), CancelTx(id, reason, now)).Ok?
    ensures var db' := Apply(Exec(EMPTY, schedule), CancelTx(id, reason, now));
            && id in db'.runs && n in db'.runs[id].tasks
            && (db'.runs[id].tasks[n].status.Terminal() || Expired(db'.runs[id], n, now))
            && (RunAt(schedule, id).tasks[n].status.Terminal() ==>
                  db'.runs[id].tasks[n] == RunAt(schedule, id).tasks[n])
  {
    hide Exec, RunInv;
    RunAtInv(schedule, id);
    HasTasks(RunAt(schedule, id));
  }

  /** A lease that expires with attempts left hands the task to whoever claims from then on. */
  lemma {:induction false} ExpiryHandsOver(schedule: seq<Txn>, id: RunId, n: Name, now: Time)
    requires id in Exec(EMPTY, schedule).runs && Expired(RunAt(schedule, id), n, now) && !RunAt(schedule, id).completed
    ensures var r := RunAt(schedule, id);
            var out := Expire(r, n, r.tasks[n], now);
            && out.Ok? && n in out.value.tasks && out.value.tasks[n].attempt == r.tasks[n].attempt
            && (r.tasks[n].attempt < MaxAttempts(r.def, n) ==>
                  Claimable(out.value, n, now) && out.value.tasks[n].worker == None)
            && (r.tasks[n].attempt >= MaxAttempts(r.def, n) ==> out.value.tasks[n].status.TaskDead?)
  {
    hide Exec, RunInv, Expire, MaxAttempts;
    RunAtInv(schedule, id);
    var r := RunAt(schedule, id);
    ExpireKeeps(r, n, now);
    ExpireOutcome(r, n, now);
  }

  lemma {:induction false} ExpireOutcome(r: Run, n: Name, now: Time)
    requires n in r.tasks && r.tasks[n].status.Holds() && RunInv(r) && !r.completed
    requires Expire(r, n, r.tasks[n], now).Ok?
    ensures var row := Expire(r, n, r.tasks[n], now).value.tasks;
            && n in row && row[n].attempt == r.tasks[n].attempt
            && (r.tasks[n].attempt < MaxAttempts(r.def, n) ==>
                  row[n].status.TaskReady? && row[n].scheduledAt == now && row[n].worker == None)
            && (r.tasks[n].attempt >= MaxAttempts(r.def, n) ==> row[n].status.TaskDead?)
  {
    hide AbandonDependents, Settle, MaxAttempts, RunInv;
    HasTasks(r);
    var seen := r.tasks[n];
    if seen.attempt >= MaxAttempts(r.def, n) {
      var buried := DeadLetterExpired(Log(r, n, TASK_LEASE_EXPIRED(seen.attempt)), n, seen).value;
      assert !buried.completed && buried.tasks[n].status.TaskDead?;
      DeadStaysDead(buried, n);
    }
  }

  lemma {:induction false} DeadStaysDead(r: Run, n: Name)
    requires !r.completed && n in r.tasks && r.tasks[n].status.TaskDead?
    requires AbandonDependents(r, n).Ok? && Settle(AbandonDependents(r, n).value).Ok?
    ensures var r' := Settle(AbandonDependents(r, n).value).value;
            n in r'.tasks && r'.tasks[n].status.TaskDead? && r'.tasks[n].attempt == r.tasks[n].attempt
  {
    hide AbandonEach, Settle, Descendants;
    var names := Descendants(r.def, n);
    var reason := "upstream task " + n + " did not succeed: ";
    AbandonEvolves(r, names, reason);
    var r' := AbandonEach(r, names, reason).value;
    assert RowEvolves(r.tasks[n], r'.tasks[n]);
    SettleEvolves(r');
  }

  // ---------------------------------------------------------------- workers

  /** Nothing brings a LOST or STOPPED worker back. */
  lemma {:induction false} GoneWorkersStayGone(db: Db, later: seq<Txn>, w: WorkerId)
    requires w in db.workers && !Alive(db.workers[w])
    ensures w in Exec(db, later).workers && Exec(db, later).workers[w] == db.workers[w]
    decreases |later|
  {
    hide Apply;
    if later != [] {
      GoneWorkersStayGone(db, later[..|later| - 1], w);
      StaysGone(Exec(db, later[..|later| - 1]), later[|later| - 1], w);
    }
  }

  lemma {:induction false} StaysGone(db: Db, t: Txn, w: WorkerId)
    requires w in db.workers && !Alive(db.workers[w])
    ensures w in Apply(db, t).workers && Apply(db, t).workers[w] == db.workers[w]
  {
    hide Claimable, Due, Expired, IsDistinct, Lists, SilentWorkers, LoseEach, ClaimEach, PromoteEach, ExpireEach,
         CreateRun, Start, Succeed, Fail, Cancel, Note, MoveLeases, AnnounceLost, Released;
    match t {
      case ClaimTx(v, picks, now, until) => ClaimKeepsWorkers(db, picks, v, until);
      case PromoteTx(picks, now) => PromoteKeepsWorkers(db, picks);
      case ExpireTx(picks, now) => ExpireKeepsWorkers(db, picks, db, now);
      case SweepTx(now, s, l, lost, missed) =>
        var swept := map x | x in db.workers :: SweptWorker(db.workers[x], s, l);
        LoseKeepsWorkers(db.(workers := swept), lost, now, missed);
      case _ =>
    }
  }

  lemma {:induction false} ClaimKeepsWorkers(db: Db, picks: seq<Pick>, w: WorkerId, until: Time)
    ensures ClaimEach(db, picks, w, until).Ok? ==> ClaimEach(db, picks, w, until).value.workers == db.workers
    decreases |picks|
  {
    hide Claim;
    if picks != [] && Exists(db, picks[0]) && Claim(db.runs[picks[0].0], picks[0].1, w, until).Ok? {
      var next := OnRun(db, picks[0].0, Claim(db.runs[picks[0].0], picks[0].1, w, until)).value;
      ClaimKeepsWorkers(next, picks[1..], w, until);
    }
  }

  lemma {:induction false} PromoteKeepsWorkers(db: Db, picks: seq<Pick>)
    ensures PromoteEach(db, picks).Ok? ==> PromoteEach(db, picks).value.workers == db.workers
    decreases |picks|
  {
    hide Promote;
    if picks != [] && Exists(db, picks[0]) && Promote(db.runs[picks[0].0], picks[0].1).Ok? {
      PromoteKeepsWorkers(OnRun(db, picks[0].0, Promote(db.runs[picks[0].0], picks[0].1)).value, picks[1..]);
    }
  }

  lemma {:induction false} ExpireKeepsWorkers(db: Db, picks: seq<Pick>, snap: Db, now: Time)
    ensures ExpireEach(db, picks, snap, now).Ok? ==> ExpireEach(db, picks, snap, now).value.workers == db.workers
    decreases |picks|
  {
    hide Expire;
    if picks != [] && Exists(db, picks[0]) && Exists(snap, picks[0]) {
      var out := OnRun(db, picks[0].0, Expire(db.runs[picks[0].0], picks[0].1, RowAt(snap, picks[0]), now));
      if out.Ok? { ExpireKeepsWorkers(out.value, picks[1..], snap, now); }
    }
  }

  lemma {:induction false} LoseKeepsWorkers(db: Db, lost: seq<WorkerId>, now: Time, missed: int)
    ensures LoseEach(db, lost, now, missed).workers == db.workers
    decreases |lost|
  {
    hide MoveLeases, AnnounceLost, Released;
    if lost != [] { LoseKeepsWorkers(LoseWorker(db, lost[0], now, missed), lost[1..], now, missed); }
  }

  /** What losing `w` at `now` does to one row: its lease expires there and then, no other moves. */
  predicate LeaseMoved(row: TaskRow, row': TaskRow, lost: set<WorkerId>, now: Time) {
    if row.status.Holds() && row.worker.Some? && row.worker.value in lost
    then row' == row.(lease := Some(now))
    else row' == row
  }

  function AsSet(lost: seq<WorkerId>): set<WorkerId> {
    set w | w in lost
  }

  lemma ListsAll(lost: seq<WorkerId>, all: set<WorkerId>)
    requires Lists(lost, all)
    ensures AsSet(lost) == all
  {
    forall w | w in lost ensures w in all {
      var i :| 0 <= i < |lost| && lost[i] == w;
    }
    assert forall w :: w in AsSet(lost) <==> w in all;
  }

  lemma LosingMovesLease(db: Db, w: WorkerId, now: Time, missed: int, p: Pick)
    requires Exists(db, p)
    ensures var db' := LoseWorker(db, w, now, missed);
            Exists(db', p) && LeaseMoved(RowAt(db, p), RowAt(db', p), {w}, now)
  {
    hide Released, HeldTasks;
    var moved := MoveLeases(db.runs[p.0], db.runs[p.0].tasks.Keys, w, now);
    assert LoseWorker(db, w, now, missed).runs[p.0] == AnnounceLost(moved, w, missed, |Released(db, w)|);
  }

  lemma {:induction false} LosingMovesLeases(db: Db, lost: seq<WorkerId>, now: Time, missed: int, p: Pick)
    requires Exists(db, p)
    ensures var db' := LoseEach(db, lost, now, missed);
            Exists(db', p) && LeaseMoved(RowAt(db, p), RowAt(db', p), AsSet(lost), now)
    decreases |lost|
  {
    hide LoseWorker;
    if lost != [] {
      var next := LoseWorker(db, lost[0], now, missed);
      LosingMovesLease(db, lost[0], now, missed, p);
      LosingMovesLeases(next, lost[1..], now, missed, p);
      assert AsSet(lost) == {lost[0]} + AsSet(lost[1..]);
    }
  }

  /**
   A sweep leaves every worker silent since `lostAfter` gone, and every lease such a worker held
   due for the next expiry; all other leases keep their deadlines.
   */
  lemma {:induction false} SweepExpiresLeases(db: Db, now: Time, suspectAfter: Time, lostAfter: Time,
                                              lost: seq<WorkerId>, missed: int, p: Pick, v: WorkerId)
    requires Lists(lost, SilentWorkers(db, lostAfter)) && Exists(db, p) && v in db.workers
    ensures var db' := Sweep(db, now, suspectAfter, lostAfter, lost, missed);
            && Exists(db', p)
            && LeaseMoved(RowAt(db, p), RowAt(db', p), SilentWorkers(db, lostAfter), now)
            && v in db'.workers
            && (v in SilentWorkers(db, lostAfter) <==> Alive(db.workers[v]) && db'.workers[v].status.WorkerLost?)
            && (!Alive(db.workers[v]) ==> db'.workers[v] == db.workers[v])
  {
    hide LoseEach, LeaseMoved;
    var swept := db.(workers := map w | w in db.workers :: SweptWorker(db.workers[w], suspectAfter, lostAfter));
    LosingMovesLeases(swept, lost, now, missed, p);
    LoseKeepsWorkers(swept, lost, now, missed);
    ListsAll(lost, SilentWorkers(db, lostAfter));
  }
}

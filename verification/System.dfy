/**
 The whole database and every transaction the engine can commit on it. A schedule is any
 sequence of transactions by any workers with any clocks; a refused transaction changes nothing.
 */
module System {
  import opened Common
  import opened Statuses
  import opened Events
  import opened Workflow
  import opened Tables
  import opened Invariant
  import opened Steps
  import opened Outcomes
  import opened Recovery
  import opened Evolution

  datatype WorkerStatus = WorkerHealthy | WorkerSuspect | WorkerLost | WorkerStopped

  datatype Worker = Worker(status: WorkerStatus, lastHeartbeat: Time)

  datatype Db = Db(runs: map<RunId, Run>, workers: map<WorkerId, Worker>)

  const EMPTY := Db(map[], map[])

  /** A Definition in hand has passed Parse; Validation proves what that gives. */
  type Parsed = d: Definition | Sound(d)
    ghost witness OneStep()

  ghost function OneStep(): (d: Definition)
    ensures Sound(d)
  {
    var d := Definition("w", 1, [Step("a", "h", [], None, 0)], "");
    OneStepIsSound(d);
    d
  }

  lemma OneStepIsSound(d: Definition)
    requires |d.steps| == 1 && d.steps[0].dependsOn == [] && d.steps[0].retry.None?
    ensures Sound(d)
  {
    assert d.steps[1..] == [];
    forall n ensures Deps(d, n) == [] && MaxAttempts(d, n) == 3 {
      assert Find(d.steps, n) == if d.steps[0].name == n then Some(d.steps[0]) else None;
    }
    assert d.steps[0].name in Names(d);
    forall p ensures !IsCycle(d, p) {
      if |p| >= 2 { assert p[1] !in Deps(d, p[0]); }
    }
  }

  type Pick = (RunId, Name)

  /** One committed InTx, with the choices SQL and the clock made for it. */
  datatype Txn =
    | CreateRunTx(id: RunId, def: Parsed, workflowHash: string, scenario: string, seed: int, now: Time)
    | ClaimTx(w: WorkerId, picks: seq<Pick>, now: Time, leaseUntil: Time)
    | StartTx(id: RunId, n: Name, w: WorkerId, k: int, handler: string)
    | SucceedTx(id: RunId, n: Name, w: WorkerId, k: int, output: string, artifacts: seq<Artifact>, now: Time)
    | FailTx(id: RunId, n: Name, w: WorkerId, k: int, error: string, permanent: bool, retryAt: Time)
    | ExpireTx(picks: seq<Pick>, now: Time)
    | PromoteTx(picks: seq<Pick>, now: Time)
    | CancelTx(id: RunId, reason: string, now: Time)
    | SweepTx(now: Time, suspectAfter: Time, lostAfter: Time, lost: seq<WorkerId>, missedBeats: int)
    | RetireTx(w: WorkerId, now: Time, missedBeats: int)
    | RenewTx(w: WorkerId, tasks: set<Pick>, deadline: Time)
    | RegisterTx(w: WorkerId, now: Time)
    | HeartbeatTx(w: WorkerId, now: Time)
    | NoteTx(id: RunId, n: Name, payload: Payload)

  // ---------------------------------------------------------------- one run

  function OnRun(db: Db, id: RunId, out: Outcome): Result<Db, Refusal> {
    match out
    case Ok(r) => Ok(db.(runs := db.runs[id := r]))
    case Err(e) => Err(e)
  }

  // ---------------------------------------------------------------- batches

  predicate Exists(db: Db, p: Pick) {
    p.0 in db.runs && p.1 in db.runs[p.0].tasks
  }

  predicate IsDistinct(picks: seq<Pick>) {
    forall i :: 0 <= i < |picks| ==> picks[i] !in picks[..i]
  }

  function RowAt(db: Db, p: Pick): TaskRow
    requires Exists(db, p)
  {
    db.runs[p.0].tasks[p.1]
  }

  function ClaimEach(db: Db, picks: seq<Pick>, w: WorkerId, until: Time): Result<Db, Refusal>
    decreases |picks|
  {
    if picks == [] then Ok(db)
    else if !Exists(db, picks[0]) then Err(NotSelectable)
    else
      var next :- OnRun(db, picks[0].0, Claim(db.runs[picks[0].0], picks[0].1, w, until));
      ClaimEach(next, picks[1..], w, until)
  }

  function PromoteEach(db: Db, picks: seq<Pick>): Result<Db, Refusal>
    decreases |picks|
  {
    if picks == [] then Ok(db)
    else if !Exists(db, picks[0]) then Err(NotSelectable)
    else
      var next :- OnRun(db, picks[0].0, Promote(db.runs[picks[0].0], picks[0].1));
      PromoteEach(next, picks[1..])
  }

  /** Each row is processed as `snap` showed it when the batch was selected. */
  function ExpireEach(db: Db, picks: seq<Pick>, snap: Db, now: Time): Result<Db, Refusal>
    decreases |picks|
  {
    if picks == [] then Ok(db)
    else if !Exists(db, picks[0]) || !Exists(snap, picks[0]) then Err(NotSelectable)
    else
      var next :- OnRun(db, picks[0].0, Expire(db.runs[picks[0].0], picks[0].1, RowAt(snap, picks[0]), now));
      ExpireEach(next, picks[1..], snap, now)
  }

  // ---------------------------------------------------------------- workers

  function Released(db: Db, w: WorkerId): set<Pick> {
    set id, n | id in db.runs && n in HeldTasks(db.runs[id], w) :: (id, n)
  }

  /** Expire every lease `w` holds by moving its deadline, then tell the open runs affected. */
  function ReleaseLeases(db: Db, w: WorkerId, now: Time): Db {
    db.(runs := map id | id in db.runs :: MoveLeases(db.runs[id], db.runs[id].tasks.Keys, w, now))
  }

  function AnnounceWorkerLost(db: Db, w: WorkerId, missed: int, released: int): Db {
    db.(runs := map id | id in db.runs :: AnnounceLost(db.runs[id], w, missed, released))
  }

  function LoseWorker(db: Db, w: WorkerId, now: Time, missed: int): Db {
    AnnounceWorkerLost(ReleaseLeases(db, w, now), w, missed, |Released(db, w)|)
  }

  function LoseEach(db: Db, lost: seq<WorkerId>, now: Time, missed: int): Db
    decreases |lost|
  {
    if lost == [] then db else LoseEach(LoseWorker(db, lost[0], now, missed), lost[1..], now, missed)
  }

  predicate Alive(worker: Worker) {
    worker.status.WorkerHealthy? || worker.status.WorkerSuspect?
  }

  /** The workers the second UPDATE of a sweep returns. */
  function SilentWorkers(db: Db, lostAfter: Time): set<WorkerId> {
    set w | w in db.workers && Alive(db.workers[w]) && db.workers[w].lastHeartbeat <= lostAfter
  }

  function SweptWorker(worker: Worker, suspectAfter: Time, lostAfter: Time): Worker {
    var doubted := if worker.status.WorkerHealthy? && worker.lastHeartbeat <= suspectAfter
      then worker.(status := WorkerSuspect) else worker;
    if Alive(doubted) && doubted.lastHeartbeat <= lostAfter then doubted.(status := WorkerLost) else doubted
  }

  predicate Lists(lost: seq<WorkerId>, all: set<WorkerId>) {
    && (forall i :: 0 <= i < |lost| ==> lost[i] in all && lost[i] !in lost[..i])
    && (forall w :: w in all ==> w in lost)
  }

  function Sweep(db: Db, now: Time, suspectAfter: Time, lostAfter: Time, lost: seq<WorkerId>, missed: int): Db {
    var swept := db.(workers := map w | w in db.workers :: SweptWorker(db.workers[w], suspectAfter, lostAfter));
    LoseEach(swept, lost, now, missed)
  }

  function Retire(db: Db, w: WorkerId, now: Time, missed: int): Db {
    if w !in db.workers || !Alive(db.workers[w]) then db
    else
      var stopped := db.(workers := db.workers[w := db.workers[w].(status := WorkerStopped)]);
      var released := ReleaseLeases(stopped, w, now);
      if Released(db, w) == {} then released
      else AnnounceWorkerLost(released, w, missed, |Released(db, w)|)
  }

  function Renew(db: Db, w: WorkerId, tasks: set<Pick>, deadline: Time): Db {
    db.(runs := map id | id in db.runs ::
          MoveLeases(db.runs[id], set p | p in tasks && p.0 == id :: p.1, w, deadline))
  }

  // ---------------------------------------------------------------- transactions and schedules

  function Tx(db: Db, t: Txn): Result<Db, Refusal> {
    match t
    case CreateRunTx(id, d, hash, scenario, seed, now) =>
      if id in db.runs then Err(ConstraintViolation) else OnRun(db, id, CreateRun(d, hash, scenario, seed, now))
    case ClaimTx(w, picks, now, until) =>
      if !(IsDistinct(picks) && forall p :: p in picks ==> Exists(db, p) && Claimable(db.runs[p.0], p.1, now))
      then Err(NotSelectable)
      else if picks != [] && w !in db.workers then Err(ConstraintViolation)
      else ClaimEach(db, picks, w, until)
    case StartTx(id, n, w, k, handler) =>
      if id !in db.runs then Err(LeaseLost) else OnRun(db, id, Start(db.runs[id], n, w, k, handler))
    case SucceedTx(id, n, w, k, output, artifacts, now) =>
      if id !in db.runs then Err(NotFound)
      else OnRun(db, id, Succeed(db.runs[id], n, w, k, output, artifacts, now))
    case FailTx(id, n, w, k, error, permanent, retryAt) =>
      if id !in db.runs then Err(NotFound)
      else OnRun(db, id, Fail(db.runs[id], n, w, k, error, permanent, retryAt))
    case ExpireTx(picks, now) =>
      if !(IsDistinct(picks) && forall p :: p in picks ==> Exists(db, p) && Expired(db.runs[p.0], p.1, now))
      then Err(NotSelectable) else ExpireEach(db, picks, db, now)
    case PromoteTx(picks, now) =>
      if !(IsDistinct(picks) && forall p :: p in picks ==> Exists(db, p) && Due(db.runs[p.0], p.1, now))
      then Err(NotSelectable) else PromoteEach(db, picks)
    case CancelTx(id, reason, now) =>
      if id !in db.runs then Err(NotFound) else OnRun(db, id, Cancel(db.runs[id], reason, now))
    case SweepTx(now, suspectAfter, lostAfter, lost, missed) =>
      if !Lists(lost, SilentWorkers(db, lostAfter)) then Err(NotSelectable)
      else Ok(Sweep(db, now, suspectAfter, lostAfter, lost, missed))
    case RetireTx(w, now, missed) => Ok(Retire(db, w, now, missed))
    case RenewTx(w, tasks, deadline) => Ok(Renew(db, w, tasks, deadline))
    case RegisterTx(w, now) =>
      if w in db.workers then Err(ConstraintViolation)
      else Ok(db.(workers := db.workers[w := Worker(WorkerHealthy, now)]))
    case HeartbeatTx(w, now) =>
      if w !in db.workers || !Alive(db.workers[w]) then Err(NotFound)
      else Ok(db.(workers := db.workers[w := Worker(WorkerHealthy, now)]))
    case NoteTx(id, n, p) =>
      if id !in db.runs then Err(NotFound) else OnRun(db, id, Note(db.runs[id], n, p))
  }

  /** A transaction that is refused is rolled back. */
  function Apply(db: Db, t: Txn): Db {
    match Tx(db, t)
    case Ok(after) => after
    case Err(_) => db
  }

  function Exec(db: Db, schedule: seq<Txn>): Db {
    if schedule == [] then db
    else Apply(Exec(db, schedule[..|schedule| - 1]), schedule[|schedule| - 1])
  }

  // ---------------------------------------------------------------- the system invariant

  ghost predicate Inv(db: Db) {
    forall id :: id in db.runs ==> RunInv(db.runs[id])
  }

  /** Runs are never removed, and each one evolves. */
  predicate DbEvolves(db: Db, db': Db) {
    forall id :: id in db.runs ==> id in db'.runs && Evolves(db.runs[id], db'.runs[id])
  }

  ghost predicate Good(db: Db, out: Result<Db, Refusal>) {
    out.Ok? && Inv(out.value) && DbEvolves(db, out.value)
  }

  lemma DbReflexive(db: Db)
    ensures DbEvolves(db, db)
  {
    hide Evolves;
    forall id | id in db.runs ensures Evolves(db.runs[id], db.runs[id]) { EvolvesReflexive(db.runs[id]); }
  }

  lemma DbTransitive(a: Db, b: Db, c: Db)
    requires DbEvolves(a, b) && DbEvolves(b, c)
    ensures DbEvolves(a, c)
  {
    hide Evolves;
    forall id | id in a.runs ensures id in c.runs && Evolves(a.runs[id], c.runs[id]) {
      EvolvesTransitive(a.runs[id], b.runs[id], c.runs[id]);
    }
  }

  lemma OneRunGood(db: Db, id: RunId, out: Outcome)
    requires Inv(db) && out.Ok? && RunInv(out.value)
    requires id in db.runs ==> Evolves(db.runs[id], out.value)
    ensures Good(db, OnRun(db, id, out))
  {
    hide Evolves, RunInv;
    forall x | x in db.runs ensures Evolves(db.runs[x], OnRun(db, id, out).value.runs[x]) {
      EvolvesReflexive(db.runs[x]);
    }
  }

  lemma EachRunGood(db: Db, db': Db)
    requires Inv(db) && db'.runs.Keys == db.runs.Keys
    requires forall id :: id in db.runs ==> RunInv(db'.runs[id]) && Evolves(db.runs[id], db'.runs[id])
    ensures Inv(db') && DbEvolves(db, db')
  {
    hide Evolves, RunInv;
  }

  // ---------------------------------------------------------------- batches keep it

  lemma {:induction false} DistinctRest(picks: seq<Pick>)
    requires IsDistinct(picks) && picks != []
    ensures IsDistinct(picks[1..]) && picks[0] !in picks[1..]
  {
    forall i | 0 <= i < |picks[1..]| ensures picks[1..][i] !in picks[1..][..i] {
      assert picks[i + 1] !in picks[..i + 1];
      assert forall x :: x in picks[1..][..i] ==> x in picks[..i + 1];
    }
    forall j | 0 <= j < |picks[1..]| ensures picks[1..][j] != picks[0] {
      assert picks[j + 1] !in picks[..j + 1] && picks[0] in picks[..j + 1];
    }
  }

  ghost predicate AllHave(db: Db, picks: seq<Pick>, status: TaskStatus) {
    forall p :: p in picks ==> Exists(db, p) && RowAt(db, p).status == status
  }

  /** A claim batch over any mix of runs is never aborted by a closed one. */
  lemma {:induction false} ClaimBatch(db: Db, picks: seq<Pick>, w: WorkerId, until: Time)
    requires Inv(db) && IsDistinct(picks) && AllHave(db, picks, TaskReady)
    ensures Good(db, ClaimEach(db, picks, w, until))
    decreases |picks|
  {
    hide Evolves, RunInv, IsDistinct;
    if picks == [] {
      DbReflexive(db);
    } else {
      var (id, n) := picks[0];
      assert picks[0] in picks;
      var r := db.runs[id];
      ClaimKeeps(r, n, w, until);
      ClaimEvolves(r, n, w, until);
      OneRunGood(db, id, Claim(r, n, w, until));
      var next := OnRun(db, id, Claim(r, n, w, until)).value;
      DistinctRest(picks);
      forall p | p in picks[1..] ensures Exists(next, p) && RowAt(next, p).status == TaskReady {
        assert p in picks && p != picks[0];
      }
      ClaimBatch(next, picks[1..], w, until);
      DbTransitive(db, next, ClaimEach(db, picks, w, until).value);
    }
  }

  lemma {:induction false} PromoteBatch(db: Db, picks: seq<Pick>)
    requires Inv(db) && IsDistinct(picks) && AllHave(db, picks, TaskRetrying)
    ensures Good(db, PromoteEach(db, picks))
    decreases |picks|
  {
    hide Evolves, RunInv, IsDistinct;
    if picks == [] {
      DbReflexive(db);
    } else {
      var (id, n) := picks[0];
      assert picks[0] in picks;
      var r := db.runs[id];
      PromoteKeeps(r, n);
      PromoteEvolves(r, n);
      OneRunGood(db, id, Promote(r, n));
      var next := OnRun(db, id, Promote(r, n)).value;
      DistinctRest(picks);
      forall p | p in picks[1..] ensures Exists(next, p) && RowAt(next, p).status == TaskRetrying {
        assert p in picks && p != picks[0];
      }
      PromoteBatch(next, picks[1..]);
      DbTransitive(db, next, PromoteEach(db, picks).value);
    }
  }

  ghost predicate AsSelected(db: Db, picks: seq<Pick>, snap: Db) {
    forall p :: p in picks ==>
      Exists(db, p) && Exists(snap, p) && RowAt(db, p) == RowAt(snap, p) && RowAt(db, p).status.Holds()
  }

  /** No entry of an expiry batch disturbs a later one, and none aborts it. */
  lemma {:induction false} ExpireBatch(db: Db, picks: seq<Pick>, snap: Db, now: Time)
    requires Inv(db) && IsDistinct(picks) && AsSelected(db, picks, snap)
    ensures Good(db, ExpireEach(db, picks, snap, now))
    decreases |picks|
  {
    hide Evolves, RunInv, IsDistinct, Expire;
    if picks == [] {
      DbReflexive(db);
    } else {
      var (id, n) := picks[0];
      assert picks[0] in picks;
      var r := db.runs[id];
      ExpireKeeps(r, n, now);
      ExpireEvolves(r, n, now);
      var out := Expire(r, n, r.tasks[n], now);
      OneRunGood(db, id, out);
      var next := OnRun(db, id, out).value;
      DistinctRest(picks);
      forall p | p in picks[1..]
        ensures Exists(next, p) && RowAt(next, p) == RowAt(snap, p)
      {
        assert p in picks && p != picks[0];
      }
      ExpireBatch(next, picks[1..], snap, now);
      DbTransitive(db, next, ExpireEach(db, picks, snap, now).value);
    }
  }

  // ---------------------------------------------------------------- workers keep it

  lemma MovingLeasesGood(db: Db, db': Db, w: WorkerId, names: map<RunId, set<Name>>, deadline: Time)
    requires Inv(db) && db'.runs.Keys == db.runs.Keys == names.Keys
    requires forall id :: id in db.runs ==> db'.runs[id] == MoveLeases(db.runs[id], names[id], w, deadline)
    ensures Inv(db') && DbEvolves(db, db')
  {
    hide Evolves, RunInv, MoveLeases;
    forall id | id in db.runs ensures RunInv(db'.runs[id]) && Evolves(db.runs[id], db'.runs[id]) {
      MoveLeasesKeeps(db.runs[id], names[id], w, deadline);
      MoveLeasesEvolves(db.runs[id], names[id], w, deadline);
    }
    EachRunGood(db, db');
  }

  lemma ReleaseGood(db: Db, w: WorkerId, now: Time)
    requires Inv(db)
    ensures Inv(ReleaseLeases(db, w, now)) && DbEvolves(db, ReleaseLeases(db, w, now))
  {
    hide Inv, DbEvolves, MoveLeases;
    MovingLeasesGood(db, ReleaseLeases(db, w, now), w, map id | id in db.runs :: db.runs[id].tasks.Keys, now);
  }

  lemma AnnounceGood(db: Db, w: WorkerId, missed: int, released: int)
    requires Inv(db)
    ensures Inv(AnnounceWorkerLost(db, w, missed, released))
    ensures DbEvolves(db, AnnounceWorkerLost(db, w, missed, released))
  {
    hide Evolves, RunInv, AnnounceLost;
    var db' := AnnounceWorkerLost(db, w, missed, released);
    forall id | id in db.runs ensures RunInv(db'.runs[id]) && Evolves(db.runs[id], db'.runs[id]) {
      AnnounceKeeps(db.runs[id], w, missed, released);
      AnnounceEvolves(db.runs[id], w, missed, released);
    }
    EachRunGood(db, db');
  }

  lemma {:induction false} LoseEachGood(db: Db, lost: seq<WorkerId>, now: Time, missed: int)
    requires Inv(db)
    ensures Inv(LoseEach(db, lost, now, missed)) && DbEvolves(db, LoseEach(db, lost, now, missed))
    decreases |lost|
  {
    hide Inv, DbEvolves, ReleaseLeases, AnnounceWorkerLost;
    if lost == [] {
      DbReflexive(db);
    } else {
      var released := ReleaseLeases(db, lost[0], now);
      ReleaseGood(db, lost[0], now);
      AnnounceGood(released, lost[0], missed, |Released(db, lost[0])|);
      var next := LoseWorker(db, lost[0], now, missed);
      DbTransitive(db, released, next);
      LoseEachGood(next, lost[1..], now, missed);
      DbTransitive(db, next, LoseEach(next, lost[1..], now, missed));
    }
  }

  lemma SameRunsGood(db: Db, db': Db)
    requires Inv(db) && db'.runs == db.runs
    ensures Inv(db') && DbEvolves(db, db')
  {
    hide Evolves, RunInv;
    DbReflexive(db);
  }

  lemma SweepGood(db: Db, now: Time, suspectAfter: Time, lostAfter: Time, lost: seq<WorkerId>, missed: int)
    requires Inv(db)
    ensures Good(db, Ok(Sweep(db, now, suspectAfter, lostAfter, lost, missed)))
  {
    hide Inv, DbEvolves, LoseEach;
    var swept := db.(workers := map w | w in db.workers :: SweptWorker(db.workers[w], suspectAfter, lostAfter));
    SameRunsGood(db, swept);
    LoseEachGood(swept, lost, now, missed);
    DbTransitive(db, swept, LoseEach(swept, lost, now, missed));
  }

  lemma RetireGood(db: Db, w: WorkerId, now: Time, missed: int)
    requires Inv(db)
    ensures Good(db, Ok(Retire(db, w, now, missed)))
  {
    hide Inv, DbEvolves, ReleaseLeases, AnnounceWorkerLost, Released;
    if w !in db.workers || !Alive(db.workers[w]) {
      DbReflexive(db);
    } else {
      var stopped := db.(workers := db.workers[w := db.workers[w].(status := WorkerStopped)]);
      var released := ReleaseLeases(stopped, w, now);
      SameRunsGood(db, stopped);
      ReleaseGood(stopped, w, now);
      DbTransitive(db, stopped, released);
      AnnounceGood(released, w, missed, |Released(db, w)|);
      DbTransitive(db, released, AnnounceWorkerLost(released, w, missed, |Released(db, w)|));
    }
  }

  lemma RenewGood(db: Db, w: WorkerId, tasks: set<Pick>, deadline: Time)
    requires Inv(db)
    ensures Good(db, Ok(Renew(db, w, tasks, deadline)))
  {
    hide Inv, DbEvolves, MoveLeases;
    MovingLeasesGood(db, Renew(db, w, tasks, deadline), w,
                     map id | id in db.runs :: (set p | p in tasks && p.0 == id :: p.1), deadline);
  }

  // ---------------------------------------------------------------- every transaction keeps it

  /** Transactions on a single run. */
  lemma {:induction false} RunTxGood(db: Db, t: Txn)
    requires Inv(db) && Tx(db, t).Ok?
    requires t.CreateRunTx? || t.StartTx? || t.SucceedTx? || t.FailTx? || t.CancelTx? || t.NoteTx?
    ensures Good(db, Tx(db, t))
  {
    hide Evolves, RunInv, CreateRun, Start, Succeed, Fail, Cancel, Note, Good;
    match t {
      case CreateRunTx(id, d, hash, scenario, seed, now) =>
        CreateKeeps(d, hash, scenario, seed, now);
        OneRunGood(db, id, CreateRun(d, hash, scenario, seed, now));
      case StartTx(id, n, w, k, handler) =>
        StartKeeps(db.runs[id], n, w, k, handler);
        StartEvolves(db.runs[id], n, w, k, handler);
        OneRunGood(db, id, Start(db.runs[id], n, w, k, handler));
      case SucceedTx(id, n, w, k, output, artifacts, now) =>
        SucceedKeeps(db.runs[id], n, w, k, output, artifacts, now);
        SucceedEvolves(db.runs[id], n, w, k, output, artifacts, now);
        OneRunGood(db, id, Succeed(db.runs[id], n, w, k, output, artifacts, now));
      case FailTx(id, n, w, k, error, permanent, retryAt) =>
        FailKeeps(db.runs[id], n, w, k, error, permanent, retryAt);
        FailEvolves(db.runs[id], n, w, k, error, permanent, retryAt);
        OneRunGood(db, id, Fail(db.runs[id], n, w, k, error, permanent, retryAt));
      case CancelTx(id, reason, now) =>
        CancelKeeps(db.runs[id], reason, now);
        CancelEvolves(db.runs[id], reason, now);
        OneRunGood(db, id, Cancel(db.runs[id], reason, now));
      case NoteTx(id, n, p) =>
        NoteKeeps(db.runs[id], n, p);
        NoteEvolves(db.runs[id], n, p);
        OneRunGood(db, id, Note(db.runs[id], n, p));
    }
  }

  /** Transactions over a batch of tasks or over workers. */
  lemma {:induction false} BatchTxGood(db: Db, t: Txn)
    requires Inv(db) && Tx(db, t).Ok?
    requires !(t.CreateRunTx? || t.StartTx? || t.SucceedTx? || t.FailTx? || t.CancelTx? || t.NoteTx?)
    ensures Good(db, Tx(db, t))
  {
    hide Inv, DbEvolves, ClaimEach, PromoteEach, ExpireEach, Sweep, Retire, Renew, Lists, SilentWorkers, IsDistinct;
    match t {
      case ClaimTx(w, picks, now, until) => ClaimBatch(db, picks, w, until);
      case PromoteTx(picks, now) => PromoteBatch(db, picks);
      case ExpireTx(picks, now) => ExpireBatch(db, picks, db, now);
      case SweepTx(now, s, l, lost, missed) => SweepGood(db, now, s, l, lost, missed);
      case RetireTx(w, now, missed) => RetireGood(db, w, now, missed);
      case RenewTx(w, tasks, deadline) => RenewGood(db, w, tasks, deadline);
      case RegisterTx(w, now) => SameRunsGood(db, Tx(db, t).value);
      case HeartbeatTx(w, now) => SameRunsGood(db, Tx(db, t).value);
    }
  }

  lemma {:induction false} ApplyGood(db: Db, t: Txn)
    requires Inv(db)
    ensures Inv(Apply(db, t)) && DbEvolves(db, Apply(db, t))
  {
    hide Inv, DbEvolves, Tx;
    if Tx(db, t).Err? {
      DbReflexive(db);
    } else if t.CreateRunTx? || t.StartTx? || t.SucceedTx? || t.FailTx? || t.CancelTx? || t.NoteTx? {
      RunTxGood(db, t);
    } else {
      BatchTxGood(db, t);
    }
  }

  /** Every reachable database satisfies the invariant, whatever the schedule. */
  lemma {:induction false} ExecGood(db: Db, schedule: seq<Txn>)
    requires Inv(db)
    ensures Inv(Exec(db, schedule)) && DbEvolves(db, Exec(db, schedule))
  {
    hide Inv, DbEvolves, Apply;
    if schedule == [] {
      DbReflexive(db);
    } else {
      var init := schedule[..|schedule| - 1];
      ExecGood(db, init);
      ApplyGood(Exec(db, init), schedule[|schedule| - 1]);
      DbTransitive(db, Exec(db, init), Exec(db, schedule));
    }
  }

  lemma Reachable(schedule: seq<Txn>)
    ensures Inv(Exec(EMPTY, schedule))
  {
    ExecGood(EMPTY, schedule);
  }
}

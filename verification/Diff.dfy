/**
 Comparing two reduced runs (internal/replay/diff.go) and the journal with the artifacts table
 (internal/replay/load.go). A report holds exactly the differences: none missed, none invented.
 */
module Diff {
  import opened Common
  import opened Statuses
  import opened Events
  import opened Replay
  import opened Tables
  import opened Invariant
  import opened System
  import opened Guarantees

  datatype Divergence =
    | TerminalState
    | DefinitionHash
    | Seed
    | MissingTask(n: Name)
    | ExtraTask(n: Name)
    | StatusOf(n: Name)
    | AttemptCount(n: Name)
    | ArtifactHash(n: Name, artifact: string)
    | FaultCount
    | FaultAt(i: nat)
    | SkippedEffects

  /** The digest a task last recorded under a name. */
  function Digest(artifacts: seq<Artifact>, name: string): Option<string> {
    var byName := LastByName(artifacts);
    if name in byName then Some(byName[name].sha256) else None
  }

  /** `d` is a real difference between the two states. */
  predicate Diverges(expected: RunState, actual: RunState, d: Divergence) {
    match d
    case TerminalState => expected.status != actual.status
    case DefinitionHash => expected.definitionHash != actual.definitionHash
    case Seed => expected.seed != actual.seed
    case MissingTask(n) => n in expected.tasks && n !in actual.tasks
    case ExtraTask(n) => n in actual.tasks && n !in expected.tasks
    case StatusOf(n) =>
      n in expected.tasks && n in actual.tasks && expected.tasks[n].status != actual.tasks[n].status
    case AttemptCount(n) =>
      n in expected.tasks && n in actual.tasks && expected.tasks[n].attempts != actual.tasks[n].attempts
    case ArtifactHash(n, a) =>
      && n in expected.tasks && n in actual.tasks
      && Digest(expected.tasks[n].artifacts, a) != Digest(actual.tasks[n].artifacts, a)
    case FaultCount => |expected.faults| != |actual.faults|
    case FaultAt(i) =>
      |expected.faults| == |actual.faults| && i < |expected.faults| && expected.faults[i] != actual.faults[i]
    case SkippedEffects => |expected.skippedEffects| != |actual.skippedEffects|
  }

  /** Which differences concern task `n`. */
  predicate AboutTask(d: Divergence, n: Name) {
    (d.MissingTask? || d.ExtraTask? || d.StatusOf? || d.AttemptCount? || d.ArtifactHash?) && d.n == n
  }

  // ---------------------------------------------------------------- artifacts

  method IndexByName(artifacts: seq<Artifact>) returns (byName: map<string, Artifact>)
    ensures byName == LastByName(artifacts)
  {
    byName := map[];
    for i := 0 to |artifacts|
      invariant byName == LastByName(artifacts[..i])
    {
      assert artifacts[..i + 1][..i] == artifacts[..i] && artifacts[..i + 1][i] == artifacts[i];
      byName := byName[artifacts[i].name := artifacts[i]];
    }
    assert artifacts[..|artifacts|] == artifacts;
  }

  method CompareArtifacts(task: Name, want: seq<Artifact>, got: seq<Artifact>) returns (out: seq<Divergence>)
    ensures forall d :: d in out <==>
              d.ArtifactHash? && d.n == task && Digest(want, d.artifact) != Digest(got, d.artifact)
  {
    hide LastByName;
    var wantByName := IndexByName(want);
    var gotByName := IndexByName(got);
    var names := wantByName.Keys + gotByName.Keys;
    var todo := names;
    out := [];
    while todo != {}
      invariant todo <= names
      invariant forall d :: d in out <==>
                  && d.ArtifactHash? && d.n == task && d.artifact in names && d.artifact !in todo
                  && Digest(want, d.artifact) != Digest(got, d.artifact)
      decreases |todo|
    {
      var name :| name in todo;
      if Digest(want, name) != Digest(got, name) {
        out := out + [ArtifactHash(task, name)];
      }
      todo := todo - {name};
    }
    assert forall a :: a !in names ==> Digest(want, a) == Digest(got, a) == None;
  }

  // ---------------------------------------------------------------- whole states

  /** Everything about one task the expected state has. */
  method CompareTask(expected: RunState, actual: RunState, n: Name) returns (out: seq<Divergence>)
    requires n in expected.tasks
    ensures forall d :: d in out <==> AboutTask(d, n) && Diverges(expected, actual, d)
  {
    hide Digest;
    if n !in actual.tasks { return [MissingTask(n)]; }
    var want, got := expected.tasks[n], actual.tasks[n];
    out := [];
    if want.status != got.status { out := out + [StatusOf(n)]; }
    if want.attempts != got.attempts { out := out + [AttemptCount(n)]; }
    var artifacts := CompareArtifacts(n, want.artifacts, got.artifacts);
    out := out + artifacts;
  }

  method CompareTasks(expected: RunState, actual: RunState) returns (out: seq<Divergence>)
    ensures forall d :: d in out <==> Diverges(expected, actual, d) && exists n :: AboutTask(d, n)
  {
    hide Digest;
    out := [];
    var todo := expected.tasks.Keys;
    while todo != {}
      invariant todo <= expected.tasks.Keys
      invariant forall d :: d in out <==>
                  Diverges(expected, actual, d) && exists n :: AboutTask(d, n) && n in expected.tasks && n !in todo
      decreases |todo|
    {
      var n :| n in todo;
      var more := CompareTask(expected, actual, n);
      out := out + more;
      todo := todo - {n};
    }
    todo := actual.tasks.Keys;
    while todo != {}
      invariant todo <= actual.tasks.Keys
      invariant forall d :: d in out <==>
                  && Diverges(expected, actual, d)
                  && exists n :: AboutTask(d, n) && (n in expected.tasks || n !in todo)
      decreases |todo|
    {
      var n :| n in todo;
      if n !in expected.tasks { out := out + [ExtraTask(n)]; }
      todo := todo - {n};
    }
  }

  method CompareFaults(expected: RunState, actual: RunState) returns (out: seq<Divergence>)
    ensures forall d :: d in out <==> Diverges(expected, actual, d) && (d.FaultCount? || d.FaultAt?)
  {
    hide Digest;
    if |expected.faults| != |actual.faults| { return [FaultCount]; }
    out := [];
    for i := 0 to |expected.faults|
      invariant forall d :: d in out <==> d.FaultAt? && d.i < i && expected.faults[d.i] != actual.faults[d.i]
    {
      if expected.faults[i] != actual.faults[i] { out := out + [FaultAt(i)]; }
    }
  }

  /** The report holds exactly the differences. */
  method Compare(expected: RunState, actual: RunState) returns (report: seq<Divergence>)
    ensures forall d :: d in report <==> Diverges(expected, actual, d)
  {
    hide Digest;
    report := [];
    if expected.status != actual.status { report := report + [TerminalState]; }
    if expected.definitionHash != actual.definitionHash { report := report + [DefinitionHash]; }
    if expected.seed != actual.seed { report := report + [Seed]; }
    var tasks := CompareTasks(expected, actual);
    var faults := CompareFaults(expected, actual);
    report := report + tasks + faults;
    if |expected.skippedEffects| != |actual.skippedEffects| { report := report + [SkippedEffects]; }
    forall d ensures (exists n :: AboutTask(d, n)) <==>
      d.MissingTask? || d.ExtraTask? || d.StatusOf? || d.AttemptCount? || d.ArtifactHash?
    {
      if d.MissingTask? || d.ExtraTask? || d.StatusOf? || d.AttemptCount? || d.ArtifactHash? {
        assert AboutTask(d, d.n);
      }
    }
  }

  // ---------------------------------------------------------------- what a match means

  datatype TaskProjection = TaskProjection(status: TaskStatus, attempts: int, digests: map<string, string>)

  /** What the system claims to be deterministic about. */
  datatype Projection = Projection(
    status: RunStatus,
    definitionHash: string,
    seed: int,
    tasks: map<Name, TaskProjection>,
    faults: seq<FaultState>,
    skipped: nat)

  function Digests(artifacts: seq<Artifact>): map<string, string> {
    map name | name in LastByName(artifacts) :: LastByName(artifacts)[name].sha256
  }

  function Project(s: RunState): Projection {
    Projection(s.status, s.definitionHash, s.seed,
               map n | n in s.tasks ::
                 TaskProjection(s.tasks[n].status, s.tasks[n].attempts, Digests(s.tasks[n].artifacts)),
               s.faults, |s.skippedEffects|)
  }

  lemma DigestsAgree(a: seq<Artifact>, b: seq<Artifact>)
    ensures Digests(a) == Digests(b) <==> forall name :: Digest(a, name) == Digest(b, name)
  {
    hide LastByName;
    if Digests(a) == Digests(b) {
      forall name ensures Digest(a, name) == Digest(b, name) {
        assert name in Digests(a) <==> name in Digests(b);
      }
    }
    if forall name :: Digest(a, name) == Digest(b, name) {
      forall name ensures name in Digests(a) <==> name in Digests(b) {
        assert Digest(a, name) == Digest(b, name);
      }
      forall name | name in Digests(a) ensures Digests(a)[name] == Digests(b)[name] {
        assert Digest(a, name) == Digest(b, name);
      }
    }
  }

  /** An empty report means the projections are equal: matching is an equivalence of runs. */
  lemma MatchIffSameProjection(expected: RunState, actual: RunState)
    ensures (forall d :: !Diverges(expected, actual, d)) <==> Project(expected) == Project(actual)
  {
    hide Digests, Digest;
    if forall d :: !Diverges(expected, actual, d) {
      NoDivergenceEqual(expected, actual);
    }
    if Project(expected) == Project(actual) {
      forall d ensures !Diverges(expected, actual, d) { EqualNoDivergence(expected, actual, d); }
    }
  }

  lemma EqualNoDivergence(expected: RunState, actual: RunState, d: Divergence)
    requires Project(expected) == Project(actual)
    ensures !Diverges(expected, actual, d)
  {
    hide Digests, Digest;
    assert Project(expected).tasks.Keys == expected.tasks.Keys && Project(actual).tasks.Keys == actual.tasks.Keys;
    match d {
      case StatusOf(n) => assert n in expected.tasks ==> Project(expected).tasks[n] == Project(actual).tasks[n];
      case AttemptCount(n) => assert n in expected.tasks ==> Project(expected).tasks[n] == Project(actual).tasks[n];
      case ArtifactHash(n, a) =>
        if n in expected.tasks {
          assert Project(expected).tasks[n] == Project(actual).tasks[n];
          DigestsAgree(expected.tasks[n].artifacts, actual.tasks[n].artifacts);
        }
      case _ =>
    }
  }

  lemma NoDivergenceEqual(expected: RunState, actual: RunState)
    requires forall d :: !Diverges(expected, actual, d)
    ensures Project(expected) == Project(actual)
  {
    hide Digests, Digest;
    assert !Diverges(expected, actual, TerminalState) && !Diverges(expected, actual, DefinitionHash);
    assert !Diverges(expected, actual, Seed) && !Diverges(expected, actual, SkippedEffects);
    assert !Diverges(expected, actual, FaultCount);
    forall i | 0 <= i < |expected.faults| ensures expected.faults[i] == actual.faults[i] {
      assert !Diverges(expected, actual, FaultAt(i));
    }
    forall n ensures n in expected.tasks <==> n in actual.tasks {
      assert !Diverges(expected, actual, MissingTask(n)) && !Diverges(expected, actual, ExtraTask(n));
    }
    forall n | n in expected.tasks ensures Project(expected).tasks[n] == Project(actual).tasks[n] {
      assert !Diverges(expected, actual, StatusOf(n)) && !Diverges(expected, actual, AttemptCount(n));
      forall a ensures Digest(expected.tasks[n].artifacts, a) == Digest(actual.tasks[n].artifacts, a) {
        assert !Diverges(expected, actual, ArtifactHash(n, a));
      }
      DigestsAgree(expected.tasks[n].artifacts, actual.tasks[n].artifacts);
    }
    assert Project(expected).tasks.Keys == Project(actual).tasks.Keys;
    assert Project(expected).tasks == Project(actual).tasks;
  }

  // ---------------------------------------------------------------- the artifacts table

  /** The rows listed for a task, none if the table has none. */
  function Listed(stored: map<Name, seq<Artifact>>, n: Name): seq<Artifact> {
    if n in stored then stored[n] else []
  }

  /** `d` names an artifact on which the journal and the table disagree. */
  predicate TableDiverges(state: RunState, stored: map<Name, seq<Artifact>>, d: Divergence) {
    && d.ArtifactHash? && d.n in state.tasks
    && Digest(state.tasks[d.n].artifacts, d.artifact) != Digest(Listed(stored, d.n), d.artifact)
  }

  method VerifyArtifacts(state: RunState, stored: map<Name, seq<Artifact>>) returns (out: seq<Divergence>)
    ensures forall d :: d in out <==> TableDiverges(state, stored, d)
    ensures out == [] <==> forall d :: !TableDiverges(state, stored, d)
  {
    hide Digest;
    out := [];
    var todo := state.tasks.Keys;
    while todo != {}
      invariant todo <= state.tasks.Keys
      invariant forall d :: d in out <==> TableDiverges(state, stored, d) && d.n !in todo
      decreases |todo|
    {
      var n :| n in todo;
      var more := CompareArtifacts(n, state.tasks[n].artifacts, Listed(stored, n));
      out := out + more;
      todo := todo - {n};
    }
    assert out != [] ==> out[0] in out;
  }

  /** The rows of the table, task by task: `stored` lists exactly what the run's artifacts are. */
  predicate Lists(r: Run, stored: map<Name, seq<Artifact>>) {
    forall n :: n in r.tasks ==> LastByName(Listed(stored, n)) == ArtifactsOf(r, n)
  }

  /** Of a reachable run, cancelled or not, verification of its artifacts against its journal finds nothing. */
  lemma {:induction false} EngineArtifactsVerify(schedule: seq<Txn>, id: RunId, stored: map<Name, seq<Artifact>>,
                                                 d: Divergence)
    requires id in Exec(EMPTY, schedule).runs && Lists(RunAt(schedule, id), stored)
    ensures Fold(RunAt(schedule, id).journal).Ok?
    ensures !TableDiverges(Fold(RunAt(schedule, id).journal).value, stored, d)
  {
    hide Exec, Fold, LastByName, ArtifactsOf, Listed;
    var r := RunAt(schedule, id);
    NothingUnrecorded(schedule, id, if d.ArtifactHash? then d.n else "");
    if d.ArtifactHash? && d.n in Fold(r.journal).value.tasks {
      KnownTasks(schedule, id, d.n);
    }
  }

  lemma {:induction false} KnownTasks(schedule: seq<Txn>, id: RunId, n: Name)
    requires id in Exec(EMPTY, schedule).runs && Fold(RunAt(schedule, id).journal).Ok?
    requires n in Fold(RunAt(schedule, id).journal).value.tasks
    ensures n in RunAt(schedule, id).tasks
  {
    hide Exec, RunInv, Fold;
    RunAtInv(schedule, id);
    RunIsRecorded(RunAt(schedule, id));
  }
}

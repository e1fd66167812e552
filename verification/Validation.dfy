/**
 Definition validation (internal/workflow/validate.go): the report lists exactly the problems that
 are there, and the depth-first search finds a cycle exactly when there is one.
 */
module Validation {
  import opened Common
  import opened Workflow
  import opened Invariant

  // ---------------------------------------------------------------- cycle detection

  datatype Colour = White | Grey | Black

  /** The search behind findCycle: the colouring and the current path. */
  class CycleFinder {
    const def: Definition
    var colour: map<Name, Colour>
    var path: seq<Name>
    ghost var done: seq<Name>      // the black steps, in the order they were finished

    constructor (d: Definition)
      ensures Valid() && def == d && path == [] && done == []
    {
      def, colour, path, done := d, map[], [], [];
    }

    function ColourOf(n: Name): Colour
      reads this
    {
      if n in colour then colour[n] else White
    }

    ghost predicate Valid()
      reads this
    {
      Consistent(def, colour, path, done)
    }

    /** Explore `n`: the cycle found, or None once everything `n` needs is black. */
    method Walk(n: Name) returns (cycle: Option<seq<Name>>)
      requires Valid() && Resolved(def) && n in Names(def) && ColourOf(n) == White
      requires path != [] ==> n in Deps(def, path[|path| - 1])
      modifies this
      ensures cycle.Some? ==> IsCycle(def, cycle.value) && NoDups(cycle.value[1..])
      ensures cycle.None? ==> Valid() && path == old(path) && n in done && old(done) <= done
      ensures old(colour.Keys) <= colour.Keys
      decreases Names(def) - colour.Keys
    {
      hide Consistent, Names, Resolved, Deps, IsCycle, NoDups;
      Enter(def, colour, path, done, n);
      colour := colour[n := Grey];
      path := path + [n];
      var deps := Deps(def, n);
      for i := 0 to |deps|
        invariant Valid() && path == old(path) + [n] && old(done) <= done
        invariant old(colour.Keys) + {n} <= colour.Keys
        invariant forall k :: 0 <= k < i ==> deps[k] in done
      {
        var dep := deps[i];
        DepsAreNames(def, n, dep);
        Colours(def, colour, path, done, dep);
        match ColourOf(dep)
        case Grey =>
          // The scan always stops inside the path: grey steps are exactly the ones on it.
          var j := 0;
          while path[j] != dep
            invariant 0 <= j < |path| && dep in path[j..]
            decreases |path| - j
          {
            j := j + 1;
          }
          CloseLoop(def, path, j, dep);
          return Some(path[j..] + [dep]);
        case White =>
          cycle := Walk(dep);
          if cycle.Some? { return; }
        case Black =>
      }
      Leave(def, colour, path, done, n);
      path := path[..|path| - 1];
      colour := colour[n := Black];
      done := done + [n];
      return None;
    }
  }

  /** Grey is the path, black is what finished; everything black waits only for earlier black. */
  ghost predicate Consistent(d: Definition, colour: map<Name, Colour>, path: seq<Name>, done: seq<Name>) {
    && colour.Keys <= Names(d)
    && (forall n :: n in path <==> n in colour && colour[n] == Grey)
    && (forall n :: n in done <==> n in colour && colour[n] == Black)
    && (forall n :: n in colour ==> colour[n] != White)
    && NoDups(path) && (path != [] ==> IsPath(d, path))
    && NoDups(done) && Ordered(d, done)
  }

  lemma Colours(d: Definition, colour: map<Name, Colour>, path: seq<Name>, done: seq<Name>, n: Name)
    requires Consistent(d, colour, path, done)
    ensures NoDups(path) && (path != [] ==> IsPath(d, path))
    ensures n !in colour || (colour[n] == Grey && n in path) || (colour[n] == Black && n in done)
  {
  }

  lemma Enter(d: Definition, colour: map<Name, Colour>, path: seq<Name>, done: seq<Name>, n: Name)
    requires Consistent(d, colour, path, done) && n in Names(d) && (n in colour ==> colour[n] == White)
    requires path != [] ==> n in Deps(d, path[|path| - 1])
    ensures n !in colour && Consistent(d, colour[n := Grey], path + [n], done)
  {
    hide Deps, Names, Ordered;
    assert n !in colour;
  }

  lemma Leave(d: Definition, colour: map<Name, Colour>, path: seq<Name>, done: seq<Name>, n: Name)
    requires Consistent(d, colour, path, done) && path != [] && path[|path| - 1] == n
    requires forall k :: 0 <= k < |Deps(d, n)| ==> Deps(d, n)[k] in done
    ensures Consistent(d, colour[n := Black], path[..|path| - 1], done + [n])
  {
    hide Deps, Names, Ordered, IsPath, NoDups;
    LeavePath(d, path);
    assert n in path && n !in done;
    LeaveOrdered(d, done, n);
    LeaveOnce(path, done, n);
  }

  lemma LeavePath(d: Definition, path: seq<Name>)
    requires path != [] && IsPath(d, path)
    ensures |path| > 1 ==> IsPath(d, path[..|path| - 1])
  {
    hide Deps, Names;
  }

  lemma LeaveOrdered(d: Definition, done: seq<Name>, n: Name)
    requires Ordered(d, done) && forall k :: 0 <= k < |Deps(d, n)| ==> Deps(d, n)[k] in done
    ensures Ordered(d, done + [n])
  {
    hide Deps, Names;
    forall i, m | 0 <= i < |done + [n]| && m in Deps(d, (done + [n])[i]) ensures m in (done + [n])[..i] {
      if i < |done| {
        assert m in done[..i] && (done + [n])[..i] == done[..i];
      } else {
        assert (done + [n])[..i] == done;
      }
    }
  }

  lemma LeaveOnce(path: seq<Name>, done: seq<Name>, n: Name)
    requires NoDups(path) && NoDups(done) && path != [] && path[|path| - 1] == n && n !in done
    ensures NoDups(path[..|path| - 1]) && NoDups(done + [n])
    ensures forall m :: m in path[..|path| - 1] <==> m in path && m != n
  {
    assert path == path[..|path| - 1] + [n];
  }

  /** Whatever an element depends on comes earlier. */
  ghost predicate Ordered(d: Definition, done: seq<Name>) {
    forall i, m :: 0 <= i < |done| && m in Deps(d, done[i]) ==> m in done[..i]
  }

  /** The tail of a path, from the step its last element leads back to, closed up. */
  lemma CloseLoop(d: Definition, path: seq<Name>, j: nat, dep: Name)
    requires IsPath(d, path) && NoDups(path) && j < |path| && path[j] == dep && dep in Deps(d, path[|path| - 1])
    ensures IsCycle(d, path[j..] + [dep]) && NoDups((path[j..] + [dep])[1..])
  {
    var c := path[j..] + [dep];
    forall i | 0 <= i < |c| - 1 ensures c[i + 1] in Deps(d, c[i]) {
      if i < |c| - 2 { assert c[i] == path[j + i] && c[i + 1] == path[j + i + 1]; }
    }
  }

  /** Along a path inside `done`, positions fall. */
  lemma {:induction false} PathDescends(d: Definition, done: seq<Name>, p: seq<Name>, i: nat, j: nat)
    requires Ordered(d, done) && NoDups(done) && IsPath(d, p)
    requires i < |done| && done[i] == p[0] && j < |done| && done[j] == p[|p| - 1]
    ensures j + |p| - 1 <= i
    decreases |p|
  {
    if |p| > 1 {
      assert p[1] in Deps(d, done[i]);
      var k :| 0 <= k < i && done[k] == p[1];
      PathDescends(d, done, p[1..], k, j);
    }
  }

  lemma {:induction false} OrderedIsAcyclic(d: Definition, done: seq<Name>)
    requires Ordered(d, done) && NoDups(done) && Resolved(d)
    requires forall n :: n in Names(d) ==> n in done
    ensures Acyclic(d)
  {
    forall p ensures !IsCycle(d, p) {
      if IsCycle(d, p) {
        DepsAreNames(d, p[0], p[1]);
        var i :| 0 <= i < |done| && done[i] == p[0];
        PathDescends(d, done, p, i, i);
      }
    }
  }

  /** Complete and sound: None exactly for an acyclic definition, else an actual simple cycle. */
  method FindCycle(d: Definition) returns (cycle: Option<seq<Name>>)
    requires UniqueNames(d.steps) && Resolved(d)
    ensures cycle.None? <==> Acyclic(d)
    ensures cycle.Some? ==> IsCycle(d, cycle.value) && NoDups(cycle.value[1..])
  {
    var finder := new CycleFinder(d);
    for i := 0 to |d.steps|
      invariant finder.Valid() && finder.def == d && finder.path == []
      invariant forall k :: 0 <= k < i ==> d.steps[k].name in finder.done
    {
      assert d.steps[i].name in Names(d);
      if finder.ColourOf(d.steps[i].name) == White {
        cycle := finder.Walk(d.steps[i].name);
        if cycle.Some? { return; }
      }
    }
    OrderedIsAcyclic(d, finder.done);
    return None;
  }

  // ---------------------------------------------------------------- names and retry policies

  const NAME_MAX_LEN := 64

  predicate NameChar(c: char) {
    'a' <= c <= 'z' || 'A' <= c <= 'Z' || '0' <= c <= '9' || c == '-' || c == '_'
  }

  predicate ValidName(name: string) {
    0 < |name| <= NAME_MAX_LEN && forall i :: 0 <= i < |name| ==> NameChar(name[i])
  }

  const MAX_ATTEMPTS := 100

  datatype RetryProblem = TooFewAttempts | TooManyAttempts | NegativeDelay | Shrinking | DelayAboveCap | BadJitter

  function RetryProblems(p: RetryPolicy): seq<RetryProblem> {
    (if p.maxAttempts < 1 then [TooFewAttempts] else [])
    + (if p.maxAttempts > MAX_ATTEMPTS then [TooManyAttempts] else [])
    + (if p.initialDelay < 0 then [NegativeDelay] else [])
    + (if p.maxAttempts > 1 && p.multiplier < 1.0 then [Shrinking] else [])
    + (if p.maxDelay > 0 && p.initialDelay > p.maxDelay then [DelayAboveCap] else [])
    + (if p.jitter < 0.0 || p.jitter > 1.0 then [BadJitter] else [])
  }

  /** What is wrong with a policy, one way at a time. */
  predicate RetryWrong(p: RetryPolicy, q: RetryProblem) {
    match q
    case TooFewAttempts => p.maxAttempts <= 0
    case TooManyAttempts => p.maxAttempts > 100
    case NegativeDelay => p.initialDelay < 0
    case Shrinking => p.maxAttempts >= 2 && p.multiplier < 1.0
    case DelayAboveCap => 0 < p.maxDelay < p.initialDelay
    case BadJitter => !(0.0 <= p.jitter <= 1.0)
  }

  /** A policy that can work: one to a hundred attempts, delays that neither shrink nor start above their cap. */
  predicate RetryOk(p: RetryPolicy) {
    && 1 <= p.maxAttempts <= 100
    && 0 <= p.initialDelay && (p.maxDelay <= 0 || p.initialDelay <= p.maxDelay)
    && (p.maxAttempts == 1 || p.multiplier >= 1.0)
    && 0.0 <= p.jitter <= 1.0
  }

  /** Exactly what is wrong is listed, and nothing exactly of a policy that can work. */
  lemma RetryProblemsIff(p: RetryPolicy)
    ensures forall q :: q in RetryProblems(p) <==> RetryWrong(p, q)
    ensures RetryProblems(p) == [] <==> RetryOk(p)
  {
    var qs := RetryProblems(p);
    assert |qs| > 0 ==> qs[0] in qs;
    assert RetryWrong(p, TooFewAttempts) ==> TooFewAttempts in qs;
    assert RetryWrong(p, TooManyAttempts) ==> TooManyAttempts in qs;
    assert RetryWrong(p, NegativeDelay) ==> NegativeDelay in qs;
    assert RetryWrong(p, Shrinking) ==> Shrinking in qs;
    assert RetryWrong(p, DelayAboveCap) ==> DelayAboveCap in qs;
    assert RetryWrong(p, BadJitter) ==> BadJitter in qs;
  }

  // ---------------------------------------------------------------- validation

  datatype Problem =
    | BadWorkflowName
    | BadVersion
    | NoSteps
    | BadStepName(i: nat)
    | DeclaredTwice(first: nat, i: nat)
    | HandlerMissing(i: nat)
    | HandlerUnknown(i: nat)
    | NegativeTimeout(i: nat)
    | BadRetry(i: nat, retry: RetryProblem)
    | DependsOnItself(i: nat, k: nat)
    | ListedTwice(i: nat, k: nat)
    | UnknownDependency(i: nat, k: nat)
    | Cyclic(path: seq<Name>)
    | NoRoot

  type Handlers = Option<set<string>>

  predicate StepOk(step: Step, known: Handlers) {
    && ValidName(step.name)
    && step.handler != "" && (known.None? || step.handler in known.value)
    && step.timeout >= 0
    && (step.retry.Some? ==> RetryOk(step.retry.value))
  }

  /** Each dependency is another step with a usable name, listed once. */
  predicate DepOk(d: Definition, i: nat, k: nat)
    requires i < |d.steps| && k < |d.steps[i].dependsOn|
  {
    var deps := d.steps[i].dependsOn;
    && deps[k] != d.steps[i].name
    && deps[k] !in deps[..k]
    && deps[k] in UsableNames(d.steps)
  }

  function UsableNames(steps: seq<Step>): set<Name> {
    set i | 0 <= i < |steps| && ValidName(steps[i].name) :: steps[i].name
  }

  predicate DepsOk(d: Definition) {
    forall i, k :: 0 <= i < |d.steps| && 0 <= k < |d.steps[i].dependsOn| ==> DepOk(d, i, k)
  }

  /** Everything but the shape of the graph is in order. */
  ghost predicate Clean(d: Definition, known: Handlers) {
    && ValidName(d.name) && d.version > 0 && |d.steps| > 0
    && (forall i :: 0 <= i < |d.steps| ==> StepOk(d.steps[i], known))
    && UniqueNames(d.steps)
    && DepsOk(d)
  }

  /** What Parse promises of a definition it returns. */
  ghost predicate Accepted(d: Definition, known: Handlers) {
    Clean(d, known) && Acyclic(d)
  }

  predicate AboutStep(p: Problem) {
    p.BadStepName? || p.DeclaredTwice? || AboutStepAlone(p)
  }

  predicate AboutStepAlone(p: Problem) {
    p.HandlerMissing? || p.HandlerUnknown? || p.NegativeTimeout? || p.BadRetry?
  }

  predicate AboutDependency(p: Problem) {
    p.DependsOnItself? || p.ListedTwice? || p.UnknownDependency?
  }

  /** The problem is there. Of several that concern one dependency, or one name, the first counts. */
  ghost predicate Present(d: Definition, known: Handlers, p: Problem) {
    if AboutStep(p) then StepPresent(d, known, p)
    else if AboutDependency(p) then DependencyPresent(d, p)
    else if p.BadWorkflowName? then !ValidName(d.name)
    else if p.BadVersion? then d.version <= 0
    else if p.NoSteps? then d.steps == []
    else if p.Cyclic? then Clean(d, known) && IsCycle(d, p.path)
    else Clean(d, known) && RootsIn(d.steps) == []
  }

  ghost predicate StepPresent(d: Definition, known: Handlers, p: Problem)
    requires AboutStep(p)
  {
    p.i < |d.steps| &&
    match p
    case BadStepName(i) => !ValidName(d.steps[i].name)
    case DeclaredTwice(first, i) => ValidName(d.steps[i].name) && first < i && FirstAt(d.steps, d.steps[i].name, first)
    case HandlerMissing(i) => d.steps[i].handler == ""
    case HandlerUnknown(i) => d.steps[i].handler != "" && known.Some? && d.steps[i].handler !in known.value
    case NegativeTimeout(i) => d.steps[i].timeout < 0
    case BadRetry(i, q) => d.steps[i].retry.Some? && RetryWrong(d.steps[i].retry.value, q)
  }

  ghost predicate DependencyPresent(d: Definition, p: Problem)
    requires AboutDependency(p)
  {
    && p.i < |d.steps| && p.k < |d.steps[p.i].dependsOn|
    && var deps := d.steps[p.i].dependsOn;
       if deps[p.k] == d.steps[p.i].name then p.DependsOnItself?
       else if deps[p.k] in deps[..p.k] then p.ListedTwice?
       else p.UnknownDependency? && deps[p.k] !in UsableNames(d.steps)
  }

  /** The first step called `n`. */
  ghost predicate FirstAt(steps: seq<Step>, n: Name, first: nat) {
    && first < |steps| && steps[first].name == n
    && forall j :: 0 <= j < first ==> steps[j].name != n
  }

  // ---------------------------------------------------------------- the first pass

  /** The problems of one step taken alone. */
  function StepProblems(step: Step, known: Handlers, i: nat): seq<Problem> {
    (if step.handler == "" then [HandlerMissing(i)]
     else if known.Some? && step.handler !in known.value then [HandlerUnknown(i)] else [])
    + (if step.timeout < 0 then [NegativeTimeout(i)] else [])
    + (if step.retry.None? then []
       else
         var qs := RetryProblems(step.retry.value);
         seq(|qs|, k requires 0 <= k < |qs| => BadRetry(i, qs[k])))
  }

  lemma StepProblemsIff(d: Definition, known: Handlers, i: nat, p: Problem)
    requires i < |d.steps|
    ensures p in StepProblems(d.steps[i], known, i) <==>
            AboutStepAlone(p) && p.i == i && StepPresent(d, known, p)
  {
    hide RetryProblems, ValidName, RetryWrong;
    var step := d.steps[i];
    if step.retry.Some? { RetryProblemsIff(step.retry.value); }
    if p.BadRetry? && p.i == i && step.retry.Some? && p.retry in RetryProblems(step.retry.value) {
      var qs := RetryProblems(step.retry.value);
      var k :| 0 <= k < |qs| && qs[k] == p.retry;
      assert seq(|qs|, k requires 0 <= k < |qs| => BadRetry(i, qs[k]))[k] == p;
    }
  }

  /** Where each usable name was first declared. */
  ghost predicate FirstUses(steps: seq<Step>, names: map<Name, nat>) {
    && names.Keys == UsableNames(steps)
    && forall n :: n in names ==> FirstAt(steps, n, names[n])
  }

  /** First pass: exactly the problems of steps taken alone, and of names used again. */
  method CheckSteps(d: Definition, known: Handlers) returns (problems: seq<Problem>, names: map<Name, nat>)
    ensures FirstUses(d.steps, names)
    ensures forall p :: p in problems <==> AboutStep(p) && StepPresent(d, known, p)
  {
    hide ValidName, StepProblems, StepPresent, FirstUses;
    problems, names := [], map[];
    NothingYet(d.steps);
    for i := 0 to |d.steps|
      invariant FirstUses(d.steps[..i], names)
      invariant forall p :: p in problems <==> AboutStep(p) && p.i < i && StepPresent(d, known, p)
    {
      var step := d.steps[i];
      NameSeen(d, known, i, names);
      forall p ensures p in StepProblems(step, known, i) <==>
        AboutStepAlone(p) && p.i == i && StepPresent(d, known, p)
      {
        StepProblemsIff(d, known, i, p);
      }
      if !ValidName(step.name) {
        problems := problems + [BadStepName(i)];
      } else if step.name in names {
        problems := problems + [DeclaredTwice(names[step.name], i)];
      } else {
        names := names[step.name := i];
      }
      problems := problems + StepProblems(step, known, i);
    }
    assert d.steps[..|d.steps|] == d.steps;
    StepsInRange(d, known);
  }

  lemma StepsInRange(d: Definition, known: Handlers)
    ensures forall p :: AboutStep(p) && StepPresent(d, known, p) ==> p.i < |d.steps|
  {
  }

  /** Step `i`'s name is bad, or already in the first-use table, or new and added to it. */
  lemma NameSeen(d: Definition, known: Handlers, i: nat, names: map<Name, nat>)
    requires i < |d.steps| && FirstUses(d.steps[..i], names)
    ensures StepPresent(d, known, BadStepName(i)) <==> !ValidName(d.steps[i].name)
    ensures forall first :: StepPresent(d, known, DeclaredTwice(first, i)) <==>
              ValidName(d.steps[i].name) && d.steps[i].name in names && first == names[d.steps[i].name]
    ensures FirstUses(d.steps[..i + 1], if ValidName(d.steps[i].name) && d.steps[i].name !in names
                                        then names[d.steps[i].name := i] else names)
  {
    hide ValidName;
    var before, after, n := d.steps[..i], d.steps[..i + 1], d.steps[i].name;
    assert after == before + [d.steps[i]];
    UsableNext(d.steps, i);
    forall j | 0 <= j < i && before[j].name == n && ValidName(n) ensures n in names {
      assert before[j].name in UsableNames(before);
    }
    forall m | m in names ensures FirstAt(after, m, names[m]) && FirstAt(d.steps, m, names[m]) {
      assert FirstAt(before, m, names[m]);
      assert forall j :: 0 <= j <= names[m] ==> after[j] == before[j] == d.steps[j];
    }
    assert forall j :: 0 <= j < i ==> before[j] == d.steps[j];
  }

  lemma NothingYet(steps: seq<Step>)
    ensures FirstUses(steps[..0], map[])
  {
    assert steps[..0] == [] && UsableNames([]) == {};
  }

  lemma UsableNext(steps: seq<Step>, i: nat)
    requires i < |steps|
    ensures UsableNames(steps[..i + 1]) ==
            UsableNames(steps[..i]) + (if ValidName(steps[i].name) then {steps[i].name} else {})
  {
    hide ValidName;
    var before, after := steps[..i], steps[..i + 1];
    assert after == before + [steps[i]];
    assert forall j :: 0 <= j < i ==> after[j] == before[j];
    assert after[i] == steps[i];
    forall n | n in UsableNames(before) ensures n in UsableNames(after) {
      var j :| 0 <= j < i && before[j].name == n;
      assert after[j].name == n;
    }
  }

  /** Nothing in the first pass means well-formed steps with names of their own. */
  lemma StepsCleanIff(d: Definition, known: Handlers)
    ensures (forall p :: AboutStep(p) ==> !StepPresent(d, known, p)) <==>
            UniqueNames(d.steps) && forall i :: 0 <= i < |d.steps| ==> StepOk(d.steps[i], known)
  {
    hide ValidName;
    if forall p :: AboutStep(p) ==> !StepPresent(d, known, p) {
      forall i | 0 <= i < |d.steps| ensures StepOk(d.steps[i], known) { StepIsOk(d, known, i); }
      forall i, j | 0 <= i < j < |d.steps| ensures d.steps[i].name != d.steps[j].name {
        assert StepOk(d.steps[j], known);
        if d.steps[i].name == d.steps[j].name { SharedNamePresent(d, known, i, j); }
      }
    }
    if UniqueNames(d.steps) && forall i :: 0 <= i < |d.steps| ==> StepOk(d.steps[i], known) {
      forall p | AboutStep(p) ensures !StepPresent(d, known, p) {
        if p.i < |d.steps| { assert StepOk(d.steps[p.i], known); }
      }
    }
  }

  lemma StepIsOk(d: Definition, known: Handlers, i: nat)
    requires i < |d.steps| && forall p :: AboutStep(p) ==> !StepPresent(d, known, p)
    ensures StepOk(d.steps[i], known)
  {
    hide ValidName, RetryProblems, RetryWrong, RetryOk;
    if d.steps[i].retry.Some? { RetryProblemsIff(d.steps[i].retry.value); }
    assert !StepPresent(d, known, BadStepName(i)) && !StepPresent(d, known, HandlerMissing(i));
    assert !StepPresent(d, known, HandlerUnknown(i)) && !StepPresent(d, known, NegativeTimeout(i));
    if d.steps[i].retry.Some? {
      var qs := RetryProblems(d.steps[i].retry.value);
      assert |qs| > 0 ==> qs[0] in qs;
      assert forall q :: q in qs ==> StepPresent(d, known, BadRetry(i, q));
    }
  }

  lemma SharedNamePresent(d: Definition, known: Handlers, i: nat, j: nat)
    requires i < j < |d.steps| && d.steps[i].name == d.steps[j].name && ValidName(d.steps[j].name)
    ensures exists first :: StepPresent(d, known, DeclaredTwice(first, j))
  {
    hide ValidName;
    var first := FirstUse(d.steps, d.steps[j].name, i);
    assert StepPresent(d, known, DeclaredTwice(first, j));
  }

  lemma {:induction false} FirstUse(steps: seq<Step>, n: Name, i: nat) returns (first: nat)
    requires i < |steps| && steps[i].name == n
    ensures first <= i && FirstAt(steps, n, first)
  {
    if j :| 0 <= j < i && steps[j].name == n {
      first := FirstUse(steps, n, j);
    } else {
      first := i;
    }
  }

  // ---------------------------------------------------------------- the second pass

  /** Which problems the second pass has come to after `k` dependencies of step `i`. */
  predicate Before(p: Problem, i: nat, k: nat)
    requires AboutDependency(p)
  {
    p.i < i || (p.i == i && p.k < k)
  }

  /** Second pass: exactly the problems of dependencies, against the names the first pass collected. */
  method CheckDependencies(d: Definition, names: map<Name, nat>) returns (problems: seq<Problem>)
    requires names.Keys == UsableNames(d.steps)
    ensures forall p :: p in problems <==> AboutDependency(p) && DependencyPresent(d, p)
  {
    hide UsableNames;
    problems := [];
    for i := 0 to |d.steps|
      invariant forall p :: p in problems <==> AboutDependency(p) && Before(p, i, 0) && DependencyPresent(d, p)
    {
      var deps, seen := d.steps[i].dependsOn, {};
      for k := 0 to |deps|
        invariant seen == Elements(deps[..k])
        invariant forall p :: p in problems <==> AboutDependency(p) && Before(p, i, k) && DependencyPresent(d, p)
      {
        assert deps[..k + 1] == deps[..k] + [deps[k]];
        if deps[k] == d.steps[i].name {
          problems := problems + [DependsOnItself(i, k)];
        } else if deps[k] in seen {
          problems := problems + [ListedTwice(i, k)];
        } else if deps[k] !in names {
          problems := problems + [UnknownDependency(i, k)];
        }
        seen := seen + {deps[k]};
      }
    }
  }

  lemma DependenciesCleanIff(d: Definition)
    ensures (forall p :: AboutDependency(p) ==> !DependencyPresent(d, p)) <==> DepsOk(d)
  {
    hide UsableNames;
    if forall p :: AboutDependency(p) ==> !DependencyPresent(d, p) {
      forall i, k | 0 <= i < |d.steps| && 0 <= k < |d.steps[i].dependsOn| ensures DepOk(d, i, k) {
        assert !DependencyPresent(d, DependsOnItself(i, k)) && !DependencyPresent(d, ListedTwice(i, k));
        assert !DependencyPresent(d, UnknownDependency(i, k));
      }
    }
    if DepsOk(d) {
      forall p | AboutDependency(p) ensures !DependencyPresent(d, p) {
        if p.i < |d.steps| && p.k < |d.steps[p.i].dependsOn| { assert DepOk(d, p.i, p.k); }
      }
    }
  }

  // ---------------------------------------------------------------- validate

  /**
   Every problem is reported and none is invented, a cycle being reported by one example; a
   definition without problems can be run. The missing root is reported exactly when everything
   but the graph is in order and no step can start, and then always beside a cycle.
   */
  method Validate(d: Definition, known: Handlers) returns (problems: seq<Problem>)
    ensures forall p :: p in problems ==> Present(d, known, p)
    ensures forall p :: Present(d, known, p) && !p.Cyclic? ==> p in problems
    ensures (exists path :: Cyclic(path) in problems) <==> Clean(d, known) && !Acyclic(d)
    ensures NoRoot in problems ==> exists path :: Cyclic(path) in problems
    ensures problems == [] <==> Accepted(d, known)
    ensures problems == [] ==> Sound(d)
  {
    hide ValidName, StepOk, DepsOk, UniqueNames, StepPresent, DependencyPresent, RootsIn, IsCycle;
    problems := [];
    if !ValidName(d.name) { problems := problems + [BadWorkflowName]; }
    if d.version <= 0 { problems := problems + [BadVersion]; }
    if d.steps == [] {
      NoStepsNoMore(d, known);
      return problems + [NoSteps];
    }
    var stepProblems, names := CheckSteps(d, known);
    var depProblems := CheckDependencies(d, names);
    CleanIff(d, known, problems, stepProblems, depProblems);
    problems := problems + stepProblems + depProblems;
    if problems == [] {
      DepsOkResolves(d);
      var cycle := FindCycle(d);
      if cycle.Some? {
        problems := [Cyclic(cycle.value)];
        assert problems[0] == Cyclic(cycle.value);
      } else {
        AcceptedIsSound(d, known);
        HasRoot(d);
      }
      // Also reported beside a cycle, when every step is on or behind one.
      if RootsIn(d.steps) == [] { problems := problems + [NoRoot]; }
    }
  }

  lemma NoStepsNoMore(d: Definition, known: Handlers)
    requires d.steps == []
    ensures forall p :: AboutStep(p) ==> !StepPresent(d, known, p)
    ensures forall p :: AboutDependency(p) ==> !DependencyPresent(d, p)
  {
  }

  /** The first three parts of the report are silent exactly when everything but the graph is in order. */
  lemma CleanIff(d: Definition, known: Handlers, head: seq<Problem>, steps: seq<Problem>, deps: seq<Problem>)
    requires d.steps != [] && (head == [] <==> ValidName(d.name) && d.version > 0)
    requires forall p :: p in steps <==> AboutStep(p) && StepPresent(d, known, p)
    requires forall p :: p in deps <==> AboutDependency(p) && DependencyPresent(d, p)
    ensures head + steps + deps == [] <==> Clean(d, known)
  {
    hide ValidName, StepOk, DepsOk, UniqueNames, StepPresent, DependencyPresent;
    StepsCleanIff(d, known);
    DependenciesCleanIff(d);
    assert steps == [] <==> forall p :: AboutStep(p) ==> !StepPresent(d, known, p) by {
      assert steps != [] ==> steps[0] in steps;
    }
    assert deps == [] <==> forall p :: AboutDependency(p) ==> !DependencyPresent(d, p) by {
      assert deps != [] ==> deps[0] in deps;
    }
  }

  /** Two steps that wait for each other: the cycle and the missing root are reported together. */
  method LoopOfTwo() returns (problems: seq<Problem>)
    ensures NoRoot in problems && exists path :: Cyclic(path) in problems
  {
    var d := Definition("w", 1, [Step("a", "h", ["b"], None, 0), Step("b", "h", ["a"], None, 0)], "");
    LoopIsClean(d);
    problems := Validate(d, None);
    assert Present(d, None, NoRoot);
  }

  lemma LoopIsClean(d: Definition)
    requires d == Definition("w", 1, [Step("a", "h", ["b"], None, 0), Step("b", "h", ["a"], None, 0)], "")
    ensures Clean(d, None) && RootsIn(d.steps) == []
  {
    assert d.steps[0].name in UsableNames(d.steps) && d.steps[1].name in UsableNames(d.steps);
    forall i, k | 0 <= i < |d.steps| && 0 <= k < |d.steps[i].dependsOn| ensures DepOk(d, i, k) {
      assert d.steps[i].dependsOn[..0] == [];
    }
    RootsInIff(d.steps);
  }

  lemma DepsOkResolves(d: Definition)
    requires DepsOk(d)
    ensures Resolved(d)
  {
    hide ValidName;
    forall i, k | 0 <= i < |d.steps| && 0 <= k < |d.steps[i].dependsOn|
      ensures d.steps[i].dependsOn[k] in Names(d)
    {
      assert DepOk(d, i, k);
    }
  }

  /** Everything the engine relies on follows from acceptance. */
  lemma AcceptedIsSound(d: Definition, known: Handlers)
    requires Accepted(d, known)
    ensures Sound(d)
  {
    hide ValidName, Acyclic, DepsOk;
    DepsOkResolves(d);
    forall n | n in Names(d) ensures MaxAttempts(d, n) >= 1 {
      var i :| 0 <= i < |d.steps| && d.steps[i].name == n;
      FindAt(d.steps, i);
      assert StepOk(d.steps[i], known);
    }
  }

  lemma {:induction false} RootsInIff(steps: seq<Step>)
    ensures RootsIn(steps) == [] <==> forall i :: 0 <= i < |steps| ==> steps[i].dependsOn != []
  {
    if steps != [] {
      RootsInIff(steps[1..]);
      assert forall i :: 0 < i < |steps| ==> steps[i] == steps[1..][i - 1];
    }
  }

  lemma StepWaits(d: Definition, i: nat)
    requires UniqueNames(d.steps) && Resolved(d) && i < |d.steps| && d.steps[i].dependsOn != []
    ensures WaitsWithin(d, d.steps[i].name, Names(d))
  {
    FindAt(d.steps, i);
    assert d.steps[i].dependsOn[0] in Names(d);
  }

  /** A workflow in which nothing can start has a cycle. */
  lemma {:induction false} NoRootMeansCycle(d: Definition)
    requires UniqueNames(d.steps) && Resolved(d) && d.steps != [] && RootsIn(d.steps) == []
    ensures !Acyclic(d)
  {
    hide Acyclic, WaitsWithin, RootsIn, UniqueNames, Resolved;
    RootsInIff(d.steps);
    forall x | x in Names(d) ensures WaitsWithin(d, x, Names(d)) {
      var i :| 0 <= i < |d.steps| && d.steps[i].name == x;
      StepWaits(d, i);
    }
    assert d.steps[0].name in Names(d);
    StuckSetHasCycle(d, Names(d));
  }

  /** The guard after the cycle check never fires on its own: a sound definition has a root. */
  lemma {:induction false} HasRoot(d: Definition)
    requires Sound(d)
    ensures RootsIn(d.steps) != []
  {
    hide Acyclic, RootsIn, UniqueNames, Resolved, MaxAttempts;
    if RootsIn(d.steps) == [] { NoRootMeansCycle(d); }
  }
}

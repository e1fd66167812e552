/**
 Workflow definitions as graphs: lookups (internal/workflow/definition.go), dependency paths,
 cycles, and the forward closure the engine abandons when a task dies.
 */
module Workflow {
  import opened Common

  datatype RetryPolicy = RetryPolicy(
    maxAttempts: int,
    initialDelay: int,   // nanoseconds, as time.Duration
    multiplier: real,
    maxDelay: int,
    jitter: real)

  datatype Step = Step(
    name: Name,
    handler: string,
    dependsOn: seq<Name>,
    retry: Option<RetryPolicy>,
    timeout: int)

  datatype Definition = Definition(name: string, version: int, steps: seq<Step>, hash: string)

  function DefaultRetryPolicy(): RetryPolicy {
    RetryPolicy(3, SECOND, 2.0, 30 * SECOND, 0.2)
  }

  // ---------------------------------------------------------------- lookups

  /** The first step with the given name. */
  function Find(steps: seq<Step>, n: Name): Option<Step> {
    if steps == [] then None
    else if steps[0].name == n then Some(steps[0])
    else Find(steps[1..], n)
  }

  function RetryFor(d: Definition, n: Name): RetryPolicy {
    match Find(d.steps, n)
    case Some(step) => if step.retry.Some? then step.retry.value else DefaultRetryPolicy()
    case None => DefaultRetryPolicy()
  }

  function MaxAttempts(d: Definition, n: Name): int {
    RetryFor(d, n).maxAttempts
  }

  /** What a step waits for; nothing for a name that is not a step. */
  function Deps(d: Definition, n: Name): seq<Name> {
    match Find(d.steps, n)
    case Some(step) => step.dependsOn
    case None => []
  }

  function Names(d: Definition): set<Name> {
    set i | 0 <= i < |d.steps| :: d.steps[i].name
  }

  /** Steps that list `n` in depends_on, in declaration order. */
  function DependentsIn(steps: seq<Step>, n: Name): seq<Name> {
    if steps == [] then []
    else (if n in steps[0].dependsOn then [steps[0].name] else []) + DependentsIn(steps[1..], n)
  }

  function Dependents(d: Definition, n: Name): seq<Name> {
    DependentsIn(d.steps, n)
  }

  function RootsIn(steps: seq<Step>): seq<Name> {
    if steps == [] then []
    else (if steps[0].dependsOn == [] then [steps[0].name] else []) + RootsIn(steps[1..])
  }

  ghost predicate UniqueNames(steps: seq<Step>) {
    forall i, j :: 0 <= i < j < |steps| ==> steps[i].name != steps[j].name
  }

  ghost predicate Resolved(d: Definition) {
    forall i, k :: 0 <= i < |d.steps| && 0 <= k < |d.steps[i].dependsOn| ==>
      d.steps[i].dependsOn[k] in Names(d)
  }

  lemma {:induction false} FindAt(steps: seq<Step>, i: nat)
    requires UniqueNames(steps) && i < |steps|
    ensures Find(steps, steps[i].name) == Some(steps[i])
  {
    if i != 0 {
      assert steps[0].name != steps[i].name;
      FindAt(steps[1..], i - 1);
    }
  }

  lemma {:induction false} FindSound(steps: seq<Step>, n: Name)
    ensures Find(steps, n).Some? <==> exists i :: 0 <= i < |steps| && steps[i].name == n
    ensures Find(steps, n).Some? ==> Find(steps, n).value in steps && Find(steps, n).value.name == n
  {
    if steps != [] && steps[0].name != n {
      FindSound(steps[1..], n);
      if Find(steps[1..], n).Some? {
        var i :| 0 <= i < |steps[1..]| && steps[1..][i].name == n;
        assert steps[i + 1].name == n;
      }
      forall i | 0 <= i < |steps| && steps[i].name == n ensures Find(steps[1..], n).Some? {
        assert steps[1..][i - 1].name == n;
      }
    }
  }

  lemma DepsAreNames(d: Definition, n: Name, m: Name)
    requires Resolved(d) && m in Deps(d, n)
    ensures n in Names(d) && m in Names(d)
  {
    FindSound(d.steps, n);
    var i :| 0 <= i < |d.steps| && d.steps[i] == Find(d.steps, n).value;
    var k :| 0 <= k < |d.steps[i].dependsOn| && d.steps[i].dependsOn[k] == m;
  }

  lemma {:induction false} DependentsInIff(steps: seq<Step>, n: Name, x: Name)
    ensures x in DependentsIn(steps, n) <==>
            exists i :: 0 <= i < |steps| && steps[i].name == x && n in steps[i].dependsOn
  {
    if steps != [] {
      var rest := steps[1..];
      DependentsInIff(rest, n, x);
      if i :| 0 <= i < |rest| && rest[i].name == x && n in rest[i].dependsOn {
        assert steps[i + 1] == rest[i];
      }
      forall i | 0 <= i < |steps| && steps[i].name == x && n in steps[i].dependsOn
        ensures x in DependentsIn(steps, n)
      {
        if i != 0 { assert rest[i - 1] == steps[i]; }
      }
    }
  }

  /** Dependents inverts Deps: the scheduler and the validator read the same edges. */
  lemma DependentsIff(d: Definition, n: Name, x: Name)
    requires UniqueNames(d.steps)
    ensures x in Dependents(d, n) <==> n in Deps(d, x)
  {
    DependentsInIff(d.steps, n, x);
    if x in Dependents(d, n) {
      var i :| 0 <= i < |d.steps| && d.steps[i].name == x && n in d.steps[i].dependsOn;
      FindAt(d.steps, i);
    }
    if n in Deps(d, x) {
      FindSound(d.steps, x);
      var i :| 0 <= i < |d.steps| && d.steps[i] == Find(d.steps, x).value;
      assert d.steps[i].name == x && n in d.steps[i].dependsOn;
    }
  }

  // ---------------------------------------------------------------- paths and cycles

  /** Each element depends directly on the next. */
  ghost predicate IsPath(d: Definition, p: seq<Name>) {
    && |p| >= 1
    && forall i :: 0 <= i < |p| - 1 ==> p[i + 1] in Deps(d, p[i])
  }

  ghost predicate IsCycle(d: Definition, p: seq<Name>) {
    IsPath(d, p) && |p| >= 2 && p[0] == p[|p| - 1]
  }

  ghost predicate Acyclic(d: Definition) {
    forall p :: !IsCycle(d, p)
  }

  ghost predicate WaitsWithin(d: Definition, x: Name, stuck: set<Name>) {
    exists y :: y in stuck && y in Deps(d, x)
  }

  /**
   A nonempty set in which every member waits for another member contains a cycle: walk
   within the set until a name repeats.
   */
  lemma {:induction false} StuckSetHasCycle(d: Definition, stuck: set<Name>)
    requires stuck != {}
    requires forall x {:trigger WaitsWithin(d, x, stuck)} :: x in stuck ==> WaitsWithin(d, x, stuck)
    ensures !Acyclic(d)
  {
    var x :| x in stuck;
    var c := WalkStuckSet(d, stuck, [x], {x});
  }

  lemma {:induction false} WalkStuckSet(d: Definition, stuck: set<Name>, p: seq<Name>, seen: set<Name>)
    returns (c: seq<Name>)
    requires forall x {:trigger WaitsWithin(d, x, stuck)} :: x in stuck ==> WaitsWithin(d, x, stuck)
    requires IsPath(d, p) && seen <= stuck
    requires forall x :: x in seen <==> x in p
    ensures IsCycle(d, c)
    decreases stuck - seen
  {
    var last := p[|p| - 1];
    assert WaitsWithin(d, last, stuck);
    var y :| y in stuck && y in Deps(d, last);
    if y in seen {
      var i :| 0 <= i < |p| && p[i] == y;
      c := p[i..] + [y];
    } else {
      c := WalkStuckSet(d, stuck, p + [y], seen + {y});
    }
  }

  /** `x` depends, through one or more edges, on `n`. */
  ghost predicate Below(d: Definition, x: Name, n: Name) {
    exists p :: Connects(d, p, x, n)
  }

  ghost predicate Connects(d: Definition, p: seq<Name>, x: Name, n: Name) {
    IsPath(d, p) && |p| >= 2 && p[0] == x && p[|p| - 1] == n
  }

  lemma BelowStep(d: Definition, x: Name, y: Name, n: Name)
    requires y in Deps(d, x) && (y == n || Below(d, y, n))
    ensures Below(d, x, n)
  {
    if y == n {
      assert Connects(d, [x, n], x, n);
    } else {
      var p :| Connects(d, p, y, n);
      assert Connects(d, [x] + p, x, n);
    }
  }

  /** A set that holds `n` and all dependents of its members holds everything below `n`. */
  lemma {:induction false} ClosedHoldsBelow(d: Definition, closed: set<Name>, p: seq<Name>)
    requires IsPath(d, p) && p[|p| - 1] in closed
    requires forall x, y :: y in closed && y in Deps(d, x) ==> x in closed
    ensures p[0] in closed
  {
    if |p| > 1 {
      ClosedHoldsBelow(d, closed, p[1..]);
      assert p[1] in Deps(d, p[0]);
    }
  }

  // ---------------------------------------------------------------- descendants

  /** The members of `names` not in `seen`, each once, in order. */
  function Unseen(names: seq<Name>, seen: set<Name>): seq<Name> {
    if names == [] then []
    else if names[0] in seen then Unseen(names[1..], seen)
    else [names[0]] + Unseen(names[1..], seen + {names[0]})
  }

  lemma {:induction false} UnseenIff(names: seq<Name>, seen: set<Name>)
    ensures forall x :: x in Unseen(names, seen) <==> x in names && x !in seen
    ensures NoDups(Unseen(names, seen))
  {
    if names != [] {
      assert names == [names[0]] + names[1..];
      if names[0] in seen {
        UnseenIff(names[1..], seen);
      } else {
        UnseenIff(names[1..], seen + {names[0]});
      }
    }
  }

  function Elements(s: seq<Name>): set<Name> {
    set x | x in s
  }

  lemma DependentsAreNames(d: Definition, n: Name)
    ensures forall x :: x in Dependents(d, n) ==> x in Names(d)
  {
    forall x | x in Dependents(d, n) ensures x in Names(d) {
      DependentsInIff(d.steps, n, x);
    }
  }

  /** Breadth-first search along Dependents: what the queue loop appends from here on. */
  function Bfs(d: Definition, queue: seq<Name>, seen: set<Name>): (out: seq<Name>)
    decreases Names(d) - seen, |queue|
  {
    if queue == [] then []
    else
      var found := Unseen(Dependents(d, queue[0]), seen);
      if found == [] then Bfs(d, queue[1..], seen)
      else
        assert Names(d) - (seen + Elements(found)) < Names(d) - seen by {
          DependentsAreNames(d, queue[0]);
          UnseenIff(Dependents(d, queue[0]), seen);
          assert found[0] in Names(d) - seen;
        }
        found + Bfs(d, queue[1..] + found, seen + Elements(found))
  }

  /** Whatever depends on `n`, directly or through others, nearest first. */
  function Descendants(d: Definition, n: Name): seq<Name> {
    Bfs(d, [n], {n})
  }

  ghost predicate NoDups(s: seq<Name>) {
    forall i, j :: 0 <= i < j < |s| ==> s[i] != s[j]
  }

  /** Each element directly depends on an earlier one, or on something in `base`. */
  ghost predicate Layered(d: Definition, base: set<Name>, out: seq<Name>) {
    forall i :: 0 <= i < |out| ==>
      exists y :: (y in base || y in out[..i]) && y in Deps(d, out[i])
  }

  /** Everything queued is seen, and whatever depends on a seen name is seen or will be found. */
  ghost predicate Frontier(d: Definition, queue: seq<Name>, seen: set<Name>) {
    && (forall x :: x in queue ==> x in seen)
    && (forall x, y :: y in seen && y !in queue && y in Deps(d, x) ==> x in seen)
  }

  /** `out` lists, once each, what has to join `seen` to close it under dependents. */
  ghost predicate Closes(d: Definition, seen: set<Name>, out: seq<Name>) {
    && NoDups(out)
    && (forall x :: x in out ==> x !in seen)
    && Layered(d, seen, out)
    && (forall x, y :: (y in seen || y in out) && y in Deps(d, x) ==> x in seen || x in out)
  }

  lemma FrontierNext(d: Definition, queue: seq<Name>, seen: set<Name>, found: seq<Name>)
    requires queue != [] && Frontier(d, queue, seen)
    requires forall x :: x in found <==> queue[0] in Deps(d, x) && x !in seen
    ensures Frontier(d, queue[1..] + found, seen + Elements(found))
  {
    hide Deps;
    assert forall x :: x in queue ==> x == queue[0] || x in queue[1..];
    assert forall x :: x in queue[1..] + found <==> x in queue[1..] || x in found;
  }

  lemma ClosesNext(d: Definition, n: Name, seen: set<Name>, found: seq<Name>, rest: seq<Name>)
    requires n in seen && NoDups(found)
    requires forall x :: x in found <==> n in Deps(d, x) && x !in seen
    requires Closes(d, seen + Elements(found), rest)
    ensures Closes(d, seen, found + rest)
  {
    hide Deps, Layered;
    assert forall x :: x in found + rest <==> x in found || x in rest;
    assert forall x :: x in seen + Elements(found) <==> x in seen || x in found;
    LayeredNext(d, n, seen, found, rest);
    forall i, j | 0 <= i < j < |found + rest| ensures (found + rest)[i] != (found + rest)[j] {
      if i < |found| <= j { assert found[i] in Elements(found) && rest[j - |found|] in rest; }
    }
  }

  lemma LayeredNext(d: Definition, n: Name, seen: set<Name>, found: seq<Name>, rest: seq<Name>)
    requires n in seen && (forall x :: x in found ==> n in Deps(d, x))
    requires Layered(d, seen + Elements(found), rest)
    ensures Layered(d, seen, found + rest)
  {
    hide Deps;
    forall i | 0 <= i < |found + rest|
      ensures exists y :: (y in seen || y in (found + rest)[..i]) && y in Deps(d, (found + rest)[i])
    {
      if i < |found| {
        assert (found + rest)[i] in found;
      } else {
        var y :| (y in seen + Elements(found) || y in rest[..i - |found|]) && y in Deps(d, rest[i - |found|]);
        assert (found + rest)[..i] == found + rest[..i - |found|];
      }
    }
  }

  /** What one call of the search returns, for any queue it can be entered with. */
  lemma {:induction false} BfsProperties(d: Definition, queue: seq<Name>, seen: set<Name>)
    requires UniqueNames(d.steps) && Frontier(d, queue, seen)
    ensures Closes(d, seen, Bfs(d, queue, seen))
    decreases Names(d) - seen, |queue|
  {
    hide Dependents, Unseen, Frontier, Closes, Names, UniqueNames;
    if queue == [] {
      NothingQueued(d, seen);
    } else {
      var n := queue[0];
      var found := Unseen(Dependents(d, n), seen);
      UnseenIff(Dependents(d, n), seen);
      forall x ensures x in Dependents(d, n) <==> n in Deps(d, x) { DependentsIff(d, n, x); }
      QueueIsSeen(d, queue, seen);
      FrontierNext(d, queue, seen, found);
      if found == [] {
        assert queue[1..] + found == queue[1..] && seen + Elements(found) == seen;
        BfsProperties(d, queue[1..], seen);
        assert found + Bfs(d, queue, seen) == Bfs(d, queue, seen);
      } else {
        DependentsAreNames(d, n);
        assert found[0] in Names(d) - seen;
        BfsProperties(d, queue[1..] + found, seen + Elements(found));
      }
      ClosesNext(d, n, seen, found, Bfs(d, queue[1..] + found, seen + Elements(found)));
    }
  }

  lemma QueueIsSeen(d: Definition, queue: seq<Name>, seen: set<Name>)
    requires Frontier(d, queue, seen) && queue != []
    ensures queue[0] in seen
  {
  }

  lemma NothingQueued(d: Definition, seen: set<Name>)
    requires Frontier(d, [], seen)
    ensures Closes(d, seen, [])
  {
  }

  /** Everything found really is below the root. */
  lemma {:induction false} LayeredIsBelow(d: Definition, n: Name, out: seq<Name>, i: nat)
    requires Layered(d, {n}, out) && i < |out|
    ensures Below(d, out[i], n)
  {
    var y :| (y in {n} || y in out[..i]) && y in Deps(d, out[i]);
    if y in out[..i] {
      var j :| 0 <= j < i && out[j] == y;
      LayeredIsBelow(d, n, out, j);
    }
    BelowStep(d, out[i], y, n);
  }

  /** `descendants` is exactly the forward closure, without repeats and without the root. */
  lemma DescendantsIff(d: Definition, n: Name)
    requires UniqueNames(d.steps)
    ensures NoDups(Descendants(d, n)) && Layered(d, {n}, Descendants(d, n))
    ensures forall x :: x in Descendants(d, n) <==> x != n && Below(d, x, n)
  {
    BfsProperties(d, [n], {n});
    var out := Descendants(d, n);
    forall x ensures x in out <==> x != n && Below(d, x, n) {
      if x in out {
        var i :| 0 <= i < |out| && out[i] == x;
        LayeredIsBelow(d, n, out, i);
      }
      if x != n && Below(d, x, n) {
        var p :| Connects(d, p, x, n);
        ClosedHoldsBelow(d, {n} + Elements(out), p);
      }
    }
  }
}

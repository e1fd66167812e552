/**
 The fault injector (internal/fault/inject.go): draws are remembered per fault, task and attempt,
 and the memory never changes a decision. `derive` stands for the first value of the random
 source derived from the scenario's seed, the run, and the draw's key.
 */
module Injection {
  import opened Common
  import opened Text
  import opened Encoding

  datatype Kind = WorkerCrash | DuplicateDelivery | Latency | HttpError | DbDisconnect | Unimplemented

  /** Empty fields of the target select everything. */
  datatype Fault = Fault(kind: Kind, at: string, task: Name, attempt: nat, probability: real)

  datatype Site = Site(point: string, task: Name, attempt: nat)

  datatype Firing = Firing(index: nat, site: Site, draw: int)

  predicate Matches(f: Fault, site: Site) {
    && (f.at == "" || f.at == site.point)
    && (f.task == "" || f.task == site.task)
    && (f.attempt == 0 || f.attempt == site.attempt)
  }

  // ---------------------------------------------------------------- draw keys

  function DrawKey(index: nat, task: Name, attempt: nat): string {
    Decimal(index) + ":" + task + ":" + Decimal(attempt)
  }

  lemma DecimalHasNoColon(n: nat)
    ensures ':' !in Decimal(n)
  {
  }

  /** The last ':' ends the task, whatever the task holds. */
  lemma LastColon(a: string, b: string, x: string, y: string)
    requires ':' !in x && ':' !in y && a + ":" + x == b + ":" + y
    ensures a == b && x == y
  {
    var s, t := a + ":" + x, b + ":" + y;
    assert s[|a|] == ':' && forall i :: |a| < i < |s| ==> s[i] == x[i - |a| - 1] != ':';
    assert t[|b|] == ':' && forall i :: |b| < i < |t| ==> t[i] == y[i - |b| - 1] != ':';
    assert |a| == |b|;
    assert s[..|a|] == a && t[..|b|] == b && s[|a| + 1..] == x && t[|b| + 1..] == y;
  }

  /** Draw keys are injective even for task names the validator would refuse. */
  lemma DrawKeyInjective(i: nat, task: Name, k: nat, i': nat, task': Name, k': nat)
    requires DrawKey(i, task, k) == DrawKey(i', task', k')
    ensures i == i' && task == task' && k == k'
  {
    hide Decimal;
    DecimalHasNoColon(i); DecimalHasNoColon(i'); DecimalHasNoColon(k); DecimalHasNoColon(k');
    LastColon(Decimal(i) + ":" + task, Decimal(i') + ":" + task', Decimal(k), Decimal(k'));
    FirstColon(Decimal(i), Decimal(i'), task, task');
    DecimalInjective(i, i');
    DecimalInjective(k, k');
  }

  // ---------------------------------------------------------------- stateless decisions

  type Derive = string -> real

  const BILLION := 1_000_000_000.0

  /** The draw for fault `index` on one attempt; negative means it does not fire. */
  function Decision(faults: seq<Fault>, derive: Derive, index: nat, task: Name, attempt: nat): int
    requires index < |faults|
  {
    var f := faults[index];
    if f.probability == 0.0 then index
    else
      var value := derive(DrawKey(index, task, attempt));
      if value < f.probability then (value * BILLION).Floor else -1
  }

  ghost predicate Uniform(derive: Derive) {
    forall key :: 0.0 <= derive(key) < 1.0
  }

  /**
   An explicit fault always fires, with its position as its draw; a probabilistic one exactly when
   its value is below the probability, with the value in billionths.
   */
  lemma FiresIff(faults: seq<Fault>, derive: Derive, index: nat, task: Name, attempt: nat)
    requires index < |faults| && Uniform(derive)
    ensures Decision(faults, derive, index, task, attempt) >= 0 <==>
            faults[index].probability == 0.0 ||
            derive(DrawKey(index, task, attempt)) < faults[index].probability
    ensures var value := derive(DrawKey(index, task, attempt));
            var draw := Decision(faults, derive, index, task, attempt);
            if faults[index].probability == 0.0 then draw == index
            else draw >= 0 ==> draw as real <= 1_000_000_000.0 * value < draw as real + 1.0
  {
    var value := derive(DrawKey(index, task, attempt));
    assert value * BILLION >= 0.0;
    assert value * BILLION == BILLION * value;
  }

  // ---------------------------------------------------------------- what becomes of a fault

  /** What happens to one fault in one evaluation, should its turn come. */
  datatype Fate =
    | Cut            // the process ends from outside before the fault is recorded
    | Unrecorded     // its record cannot be written
    | Returned       // recorded and applied, and applying it returned
    | Failed         // recorded and applied, and applying it returned an error
    | Killed         // recorded and applied, and the process ended meanwhile, by the fault or from outside

  /**
   What applying a fault of each kind can come to. A latency is interrupted when the task's
   context ends first; a crash returns, with an error, only if the signal cannot be sent.
   */
  predicate CanMeet(kind: Kind, fate: Fate) {
    match fate
    case Returned => kind.Latency? || kind.DuplicateDelivery?
    case Failed => !kind.DuplicateDelivery?
    case _ => true
  }

  /** One fate for each fault of the scenario, each one that its kind can meet. */
  predicate Possible(faults: seq<Fault>, fates: seq<Fate>) {
    |fates| == |faults| && forall i :: 0 <= i < |faults| ==> CanMeet(faults[i].kind, fates[i])
  }

  /** How an evaluation ends: it returns nil, or an error, or the process is gone. */
  datatype Ending = Passed | Erred | Died

  /** What evaluating a site does from fault `i` on, without any memory: the faults applied, and the end. */
  function Evaluate(faults: seq<Fault>, derive: Derive, site: Site, fates: seq<Fate>, i: nat): (seq<Firing>, Ending)
    requires i <= |faults| == |fates|
    decreases |faults| - i
  {
    if i == |faults| then ([], Passed)
    else if fates[i].Cut? then ([], Died)
    else if !Matches(faults[i], site) then ([], Passed)
    else
      var draw := Decision(faults, derive, i, site.task, site.attempt);
      if draw < 0 then Evaluate(faults, derive, site, fates, i + 1)
      else if fates[i].Unrecorded? then ([], Erred)
      else if fates[i].Failed? then ([Firing(i, site, draw)], Erred)
      else if fates[i].Killed? then ([Firing(i, site, draw)], Died)
      else
        var (rest, ending) := Evaluate(faults, derive, site, fates, i + 1);
        ([Firing(i, site, draw)] + rest, ending)
  }

  // ---------------------------------------------------------------- the injector

  class Injector {
    const faults: seq<Fault>
    const derive: Derive
    var draws: map<string, int>
    var fired: nat
    var recorded: seq<Firing>       // FAULT_INJECTED events written, each before its fault was applied

    /** Every remembered draw is the one that would be made now. */
    ghost predicate Valid()
      reads this
    {
      && fired == |recorded|
      && (forall i, task, k :: 0 <= i < |faults| && DrawKey(i, task, k) in draws ==>
            draws[DrawKey(i, task, k)] == Decision(faults, derive, i, task, k))
    }

    constructor (faults: seq<Fault>, derive: Derive)
      ensures Valid() && this.faults == faults && this.derive == derive && recorded == []
    {
      this.faults, this.derive := faults, derive;
      draws, fired, recorded := map[], 0, [];
    }

    /** The memory answers exactly as a fresh draw would. */
    method Decide(i: nat, task: Name, k: nat) returns (draw: int, fires: bool)
      requires Valid() && i < |faults|
      modifies this`draws
      ensures Valid() && draw == Decision(faults, derive, i, task, k) && (fires <==> draw >= 0)
    {
      hide DrawKey;
      var key := DrawKey(i, task, k);
      if key in draws { return draws[key], draws[key] >= 0; }
      var f := faults[i];
      draw := -1;
      if f.probability == 0.0 {
        draw := i;
      } else {
        var value := derive(key);
        if value < f.probability { draw := (value * BILLION).Floor; }
      }
      forall j, other, l | 0 <= j < |faults| && DrawKey(j, other, l) == key
        ensures j == i && other == task && l == k
      {
        DrawKeyInjective(j, other, l, i, task, k);
      }
      draws := draws[key := draw];
      fires := draw >= 0;
    }

    /** Record first, then apply; the count moves only with the record. */
    method Fire(i: nat, site: Site, draw: int, fate: Fate) returns (ending: Ending)
      requires Valid() && i < |faults| && !fate.Cut?
      modifies this`fired, this`recorded
      ensures Valid()
      ensures recorded == old(recorded) + if fate.Unrecorded? then [] else [Firing(i, site, draw)]
      ensures ending.Passed? <==> fate.Returned?
      ensures ending.Died? <==> fate.Killed?
    {
      if fate.Unrecorded? { return Erred; }
      recorded := recorded + [Firing(i, site, draw)];
      fired := fired + 1;
      return if fate.Returned? then Passed else if fate.Failed? then Erred else Died;
    }

    /**
     Whatever was evaluated before, in whatever order, a site is decided as if for the first time;
     only the fates are this evaluation's own. After `Died` nobody is left to be told.
     */
    method Point(site: Site, fates: seq<Fate>) returns (ending: Ending)
      requires Valid() && Possible(faults, fates)
      modifies this
      ensures Valid()
      ensures recorded == old(recorded) + Evaluate(faults, derive, site, fates, 0).0
      ensures ending == Evaluate(faults, derive, site, fates, 0).1
    {
      hide Decision, Matches, DrawKey;
      for i := 0 to |faults|
        invariant Valid()
        invariant recorded + Evaluate(faults, derive, site, fates, i).0 ==
                  old(recorded) + Evaluate(faults, derive, site, fates, 0).0
        invariant Evaluate(faults, derive, site, fates, i).1 == Evaluate(faults, derive, site, fates, 0).1
      {
        ghost var before := recorded;
        ghost var rest := Evaluate(faults, derive, site, fates, i + 1).0;
        if fates[i].Cut? { return Died; }
        if !Matches(faults[i], site) { return Passed; }
        var draw, fires := Decide(i, site.task, site.attempt);
        if fires {
          ending := Fire(i, site, draw, fates[i]);
          assert before + ([Firing(i, site, draw)] + rest) == before + [Firing(i, site, draw)] + rest;
          if !ending.Passed? { return; }
        }
      }
      return Passed;
    }
  }

  // ---------------------------------------------------------------- which faults are applied

  /** What the scenario's author asked for at this site: an explicit fault, or one whose value is low enough. */
  predicate ShouldFire(faults: seq<Fault>, derive: Derive, site: Site, j: nat)
    requires j < |faults|
  {
    && Matches(faults[j], site)
    && (faults[j].probability == 0.0 || derive(DrawKey(j, site.task, site.attempt)) < faults[j].probability)
  }

  predicate Fires(faults: seq<Fault>, derive: Derive, site: Site, j: nat)
    requires j < |faults|
  {
    Decision(faults, derive, j, site.task, site.attempt) >= 0
  }

  /** Fault `j` is applied by the evaluation from fault `i` on. */
  predicate Applied(faults: seq<Fault>, derive: Derive, site: Site, fates: seq<Fate>, i: nat, j: nat)
    requires i <= |faults| == |fates| && j < |faults|
  {
    Firing(j, site, Decision(faults, derive, j, site.task, site.attempt)) in
      Evaluate(faults, derive, site, fates, i).0
  }

  /** Fault `l` lets the evaluation go on: it matches, and it does not fire or else applying it returns. */
  predicate LetsPass(faults: seq<Fault>, derive: Derive, site: Site, fates: seq<Fate>, l: nat)
    requires l < |faults| == |fates|
  {
    && !fates[l].Cut?
    && Matches(faults[l], site)
    && (Fires(faults, derive, site, l) ==> fates[l].Returned?)
  }

  /** Nothing from fault `i` on stops the evaluation before it reaches `j`. */
  predicate Unobstructed(faults: seq<Fault>, derive: Derive, site: Site, fates: seq<Fate>, i: nat, j: nat)
    requires i <= |faults| == |fates| && j < |faults|
  {
    forall l :: i <= l < j ==> LetsPass(faults, derive, site, fates, l)
  }

  /** The fault's record is written, once its turn has come. */
  predicate Recorded(fate: Fate) {
    !fate.Cut? && !fate.Unrecorded?
  }

  /** A fault is applied exactly when it is reached, matches, fires, and its record is written. */
  lemma {:induction false} AppliedIff(faults: seq<Fault>, derive: Derive, site: Site, fates: seq<Fate>, i: nat, j: nat)
    requires i <= |faults| == |fates| && j < |faults|
    ensures Applied(faults, derive, site, fates, i, j) <==>
            && i <= j && Unobstructed(faults, derive, site, fates, i, j)
            && Matches(faults[j], site) && Fires(faults, derive, site, j) && Recorded(fates[j])
    decreases |faults| - i
  {
    hide Decision, Matches;
    FiringsFrom(faults, derive, site, fates, i);
    if i < |faults| {
      AppliedIff(faults, derive, site, fates, i + 1, j);
      FiringsFrom(faults, derive, site, fates, i + 1);
      assert i < j ==> (Unobstructed(faults, derive, site, fates, i, j) <==>
                        LetsPass(faults, derive, site, fates, i) &&
                        Unobstructed(faults, derive, site, fates, i + 1, j));
    }
  }

  lemma {:induction false} FiringsFrom(faults: seq<Fault>, derive: Derive, site: Site, fates: seq<Fate>, i: nat)
    requires i <= |faults| == |fates|
    ensures forall f :: f in Evaluate(faults, derive, site, fates, i).0 ==> f.index >= i
    decreases |faults| - i
  {
    hide Decision, Matches;
    if i < |faults| { FiringsFrom(faults, derive, site, fates, i + 1); }
  }

  /** Fault `j` ends the evaluation this way, should its turn come. */
  predicate StopsAs(faults: seq<Fault>, derive: Derive, site: Site, fates: seq<Fate>, j: nat, ending: Ending)
    requires j < |faults| == |fates|
  {
    var fires := Matches(faults[j], site) && Fires(faults, derive, site, j);
    match ending
    case Passed => !fates[j].Cut? && !Matches(faults[j], site)
    case Erred => fires && (fates[j].Unrecorded? || fates[j].Failed?)
    case Died => fates[j].Cut? || (fires && fates[j].Killed?)
  }

  /** How an evaluation ends is decided by the first fault that stops it; without one, it passes. */
  lemma {:induction false} EndsIff(faults: seq<Fault>, derive: Derive, site: Site, fates: seq<Fate>, i: nat,
                                   ending: Ending)
    requires i <= |faults| == |fates| && !ending.Passed?
    ensures Evaluate(faults, derive, site, fates, i).1 == ending <==>
            exists j :: i <= j < |faults| && Unobstructed(faults, derive, site, fates, i, j) &&
                        StopsAs(faults, derive, site, fates, j, ending)
    decreases |faults| - i
  {
    hide Decision, Matches;
    if i < |faults| {
      EndsIff(faults, derive, site, fates, i + 1, ending);
      assert Unobstructed(faults, derive, site, fates, i, i);
      forall j | i < j < |faults|
        ensures Unobstructed(faults, derive, site, fates, i, j) <==>
                LetsPass(faults, derive, site, fates, i) && Unobstructed(faults, derive, site, fates, i + 1, j)
      {
      }
      assert StopsAs(faults, derive, site, fates, i, ending) ==> !LetsPass(faults, derive, site, fates, i);
    }
  }

  /**
   "Applying any fault that fires": every fault meant to fire at a site is applied exactly when,
   for each of them, every earlier fault matches, applying every earlier one that fires returns,
   and its own record is written, all before the process ends.
   */
  lemma AllAppliedIff(faults: seq<Fault>, derive: Derive, site: Site, fates: seq<Fate>)
    requires Uniform(derive) && Possible(faults, fates)
    ensures (forall j :: 0 <= j < |faults| && ShouldFire(faults, derive, site, j) ==>
               Applied(faults, derive, site, fates, 0, j)) <==>
            (forall j :: 0 <= j < |faults| && ShouldFire(faults, derive, site, j) ==>
               Unobstructed(faults, derive, site, fates, 0, j) && Recorded(fates[j]))
  {
    hide Decision, Matches, Unobstructed, Applied, Uniform, Recorded;
    forall j | 0 <= j < |faults| && ShouldFire(faults, derive, site, j)
      ensures Applied(faults, derive, site, fates, 0, j) <==>
              Unobstructed(faults, derive, site, fates, 0, j) && Recorded(fates[j])
    {
      FiresIff(faults, derive, j, site.task, site.attempt);
      AppliedIff(faults, derive, site, fates, 0, j);
    }
  }

  // ---------------------------------------------------------------- what the scenario alone decides

  /** Every fault before `j` matches, and those that fire are of the given kinds. */
  predicate Behind(faults: seq<Fault>, derive: Derive, site: Site, kinds: set<Kind>, j: nat)
    requires j < |faults|
  {
    forall l :: 0 <= l < j ==>
      Matches(faults[l], site) && (Fires(faults, derive, site, l) ==> faults[l].kind in kinds)
  }

  /** Nothing comes from outside: records are written, and only a crash ends the process. */
  predicate Undisturbed(faults: seq<Fault>, fates: seq<Fate>)
    requires |fates| == |faults|
  {
    forall i :: 0 <= i < |faults| ==>
      Recorded(fates[i]) && (fates[i].Killed? ==> faults[i].kind.WorkerCrash?)
  }

  /** The best that can come of each kind. */
  function Lenient(faults: seq<Fault>): (fates: seq<Fate>)
    ensures Possible(faults, fates) && Undisturbed(faults, fates)
    ensures forall i :: 0 <= i < |faults| ==>
              (fates[i].Returned? <==> faults[i].kind in {Latency, DuplicateDelivery})
  {
    seq(|faults|, i requires 0 <= i < |faults| =>
      if faults[i].kind in {Latency, DuplicateDelivery} then Returned else Failed)
  }

  /** The worst that can come of each kind when nothing comes from outside. */
  function Strict(faults: seq<Fault>): (fates: seq<Fate>)
    ensures Possible(faults, fates) && Undisturbed(faults, fates)
    ensures forall i :: 0 <= i < |faults| ==> (fates[i].Returned? <==> faults[i].kind.DuplicateDelivery?)
  {
    seq(|faults|, i requires 0 <= i < |faults| =>
      if faults[i].kind.DuplicateDelivery? then Returned else Failed)
  }

  /**
   A fault can be applied at all exactly when it matches and fires, every fault before it matches,
   and those before it that fire are latencies or duplicate deliveries.
   */
  lemma {:induction false} CanBeAppliedIff(faults: seq<Fault>, derive: Derive, site: Site, j: nat)
    requires j < |faults|
    ensures (exists fates :: Possible(faults, fates) && Applied(faults, derive, site, fates, 0, j)) <==>
            && Behind(faults, derive, site, {Latency, DuplicateDelivery}, j)
            && Matches(faults[j], site) && Fires(faults, derive, site, j)
  {
    hide Decision, Matches, Applied;
    if fates :| Possible(faults, fates) && Applied(faults, derive, site, fates, 0, j) {
      AppliedIff(faults, derive, site, fates, 0, j);
      forall l | 0 <= l < j
        ensures Matches(faults[l], site)
        ensures Fires(faults, derive, site, l) ==> faults[l].kind in {Latency, DuplicateDelivery}
      {
        assert LetsPass(faults, derive, site, fates, l) && CanMeet(faults[l].kind, fates[l]);
      }
    }
    AppliedIff(faults, derive, site, Lenient(faults), 0, j);
    assert Behind(faults, derive, site, {Latency, DuplicateDelivery}, j) ==>
      Unobstructed(faults, derive, site, Lenient(faults), 0, j);
  }

  /**
   A fault is applied in every evaluation that nothing from outside disturbs exactly when it
   matches and fires, every fault before it matches, and those before it that fire are duplicate
   deliveries: any other kind may stop the evaluation.
   */
  lemma {:induction false} AlwaysAppliedIff(faults: seq<Fault>, derive: Derive, site: Site, j: nat)
    requires j < |faults|
    ensures (forall fates :: Possible(faults, fates) && Undisturbed(faults, fates) ==>
               Applied(faults, derive, site, fates, 0, j)) <==>
            && Behind(faults, derive, site, {DuplicateDelivery}, j)
            && Matches(faults[j], site) && Fires(faults, derive, site, j)
  {
    hide Decision, Matches, Applied;
    AppliedIff(faults, derive, site, Strict(faults), 0, j);
    if Unobstructed(faults, derive, site, Strict(faults), 0, j) {
      forall l | 0 <= l < j
        ensures Matches(faults[l], site)
        ensures Fires(faults, derive, site, l) ==> faults[l].kind in {DuplicateDelivery}
      {
        assert LetsPass(faults, derive, site, Strict(faults), l);
      }
    }
    if && Behind(faults, derive, site, {DuplicateDelivery}, j)
       && Matches(faults[j], site) && Fires(faults, derive, site, j) {
      forall fates | Possible(faults, fates) && Undisturbed(faults, fates)
        ensures Applied(faults, derive, site, fates, 0, j)
      {
        AppliedIff(faults, derive, site, fates, 0, j);
        forall l | 0 <= l < j ensures LetsPass(faults, derive, site, fates, l) {
          assert CanMeet(faults[l].kind, fates[l]) && Recorded(fates[l]);
        }
      }
    }
  }

  // ---------------------------------------------------------------- each cause occurs

  const AFTER_TASK_START := "after-task-start"

  /** An explicit fault, as a scenario that validates may list it. */
  function At(kind: Kind, task: Name): Fault {
    Fault(kind, AFTER_TASK_START, task, 0, 0.0)
  }

  const SITE := Site(AFTER_TASK_START, "b", 1)

  /** The second of two faults is meant to fire and is not applied, because the first stops the evaluation. */
  predicate Shadowed(faults: seq<Fault>, derive: Derive, fates: seq<Fate>)
    requires |faults| == 2 && Possible(faults, fates)
  {
    && ShouldFire(faults, derive, SITE, 1)
    && !Applied(faults, derive, SITE, fates, 0, 1)
    && !Unobstructed(faults, derive, SITE, fates, 0, 1)
  }

  /** The first does not let the evaluation pass. */
  lemma ShadowedByFirst(faults: seq<Fault>, derive: Derive, fates: seq<Fate>)
    requires |faults| == 2 && Possible(faults, fates) && !LetsPass(faults, derive, SITE, fates, 0)
    requires ShouldFire(faults, derive, SITE, 1)
    ensures Shadowed(faults, derive, fates)
  {
    hide Decision, Matches, Applied;
    AppliedIff(faults, derive, SITE, fates, 0, 1);
  }

  /** Listed after a fault for another task. */
  lemma ShadowedByMismatch(derive: Derive)
    ensures Shadowed([At(Latency, "a"), At(HttpError, "b")], derive, [Returned, Failed])
  {
    ShadowedByFirst([At(Latency, "a"), At(HttpError, "b")], derive, [Returned, Failed]);
  }

  /** Listed after a fault that fails the same task. */
  lemma ShadowedByFailure(derive: Derive)
    ensures Shadowed([At(HttpError, "b"), At(Latency, "b")], derive, [Failed, Returned])
  {
    ShadowedByFirst([At(HttpError, "b"), At(Latency, "b")], derive, [Failed, Returned]);
  }

  /** Listed after a crash of the worker that is to apply it. */
  lemma ShadowedByCrash(derive: Derive)
    ensures Shadowed([At(WorkerCrash, "b"), At(Latency, "b")], derive, [Killed, Returned])
    ensures Evaluate([At(WorkerCrash, "b"), At(Latency, "b")], derive, SITE, [Killed, Returned], 0) ==
            ([Firing(0, SITE, 0)], Died)
  {
    ShadowedByFirst([At(WorkerCrash, "b"), At(Latency, "b")], derive, [Killed, Returned]);
  }

  /** Listed after a latency: applied when the delay runs out, and not when the task's context ends first. */
  lemma ShadowedByInterruptedLatency(derive: Derive)
    ensures Shadowed([At(Latency, "b"), At(HttpError, "b")], derive, [Failed, Failed])
    ensures Applied([At(Latency, "b"), At(HttpError, "b")], derive, SITE, [Returned, Failed], 0, 1)
  {
    var faults := [At(Latency, "b"), At(HttpError, "b")];
    ShadowedByFirst(faults, derive, [Failed, Failed]);
    AppliedIff(faults, derive, SITE, [Returned, Failed], 0, 1);
  }

  /** Its own record, or that of a firing fault before it, cannot be written. */
  lemma ShadowedByRefusal(derive: Derive)
    ensures Shadowed([At(Latency, "b"), At(HttpError, "b")], derive, [Unrecorded, Failed])
    ensures !Applied([At(Latency, "b"), At(HttpError, "b")], derive, SITE, [Returned, Unrecorded], 0, 1)
    ensures Unobstructed([At(Latency, "b"), At(HttpError, "b")], derive, SITE, [Returned, Unrecorded], 0, 1)
  {
    var faults := [At(Latency, "b"), At(HttpError, "b")];
    ShadowedByFirst(faults, derive, [Unrecorded, Failed]);
    AppliedIff(faults, derive, SITE, [Returned, Unrecorded], 0, 1);
  }
}

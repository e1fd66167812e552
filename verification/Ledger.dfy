/**
 The side-effect ledger (internal/idem/idem.go) under any interleaving of any number of callers.
 Each call of Do is a row of `calls` that looks up, runs its effect, inserts and, if beaten,
 re-reads, and then returns; it may crash between any two of those steps.
 */
module Ledger {
  import opened Common

  type Key = string
  type Caller = string

  datatype Phase =
    | Missed                                             // looked up, nothing recorded
    | Failed                                             // the effect returned an error
    | Holding(raw: string)                               // ran the effect, not yet recorded
    | Recorded(stored: string)                           // its insert wrote the record
    | Beaten                                             // another call recorded first
    | Found(stored: string, ran: bool)                   // read another call's record
    | Returned(result: string, skipped: bool, ran: bool)
    | Crashed(ran: bool, recorded: bool)
  {
    /** Whether this call has run the effect. */
    predicate Ran() {
      match this
      case Missed => false
      case Found(_, ran) => ran
      case Returned(_, _, ran) => ran
      case Crashed(ran, _) => ran
      case _ => true
    }

    /** Whether this call's insert wrote the record. */
    predicate Wrote() {
      match this
      case Recorded(_) => true
      case Returned(_, skipped, _) => !skipped
      case Crashed(_, recorded) => recorded
      case _ => false
    }

    /** Whether this call did without the effect: it has not run it and will not. */
    predicate Skipping() {
      !Ran() && !Missed?
    }

    /** Whether this call missed at its lookup and has run the effect, will, or crashed first. */
    predicate Trying() {
      Missed? || Ran() || Crashed?
    }

    predicate Finished() {
      Failed? || Returned? || Crashed?
    }
  }

  datatype Call = Call(key: Key, phase: Phase)

  /** An effect that ran, and what it returned; None if it failed. */
  datatype Effect = Effect(c: Caller, outcome: Option<string>)

  /** `log` lists the effects in the order they ran; `writer` says whose insert made each row. */
  datatype State = State(
    rows: map<Key, string>,
    writer: map<Key, Caller>,
    calls: map<Caller, Call>,
    log: seq<Effect>)

  const EMPTY := State(map[], map[], map[], [])

  datatype Step =
    | Lookup(c: Caller, key: Key)
    | Perform(c: Caller, effect: Option<string>)
    | Insert(c: Caller)
    | Reread(c: Caller)
    | Return(c: Caller)
    | Crash(c: Caller)

  function SetPhase(s: State, c: Caller, phase: Phase): State
    requires c in s.calls
  {
    s.(calls := s.calls[c := s.calls[c].(phase := phase)])
  }

  predicate At(s: State, c: Caller, phase: Phase) {
    c in s.calls && s.calls[c].phase == phase
  }

  /** INSERT ... ON CONFLICT DO NOTHING, by a call that holds `raw`. */
  function InsertRow(s: State, c: Caller, raw: string): State
    requires c in s.calls
  {
    var key := s.calls[c].key;
    if key in s.rows then SetPhase(s, c, Beaten)
    else SetPhase(s, c, Recorded(raw)).(rows := s.rows[key := raw], writer := s.writer[key := c])
  }

  /** A step that is not enabled changes nothing. */
  function Next(s: State, step: Step): State {
    match step
    case Lookup(c, key) =>
      if c in s.calls then s
      else s.(calls := s.calls[c := Call(key, if key in s.rows then Found(s.rows[key], false) else Missed)])
    case Perform(c, effect) =>
      if !At(s, c, Missed) then s
      else SetPhase(s, c, if effect.Some? then Holding(effect.value) else Failed).(log := s.log + [Effect(c, effect)])
    case Insert(c) =>
      if c in s.calls && s.calls[c].phase.Holding? then InsertRow(s, c, s.calls[c].phase.raw) else s
    case Reread(c) =>
      if !At(s, c, Beaten) || s.calls[c].key !in s.rows then s
      else SetPhase(s, c, Found(s.rows[s.calls[c].key], true))
    case Return(c) =>
      if c !in s.calls then s
      else if s.calls[c].phase.Recorded? then SetPhase(s, c, Returned(s.calls[c].phase.stored, false, true))
      else if s.calls[c].phase.Found? then SetPhase(s, c, Returned(s.calls[c].phase.stored, true, s.calls[c].phase.ran))
      else s
    case Crash(c) =>
      if c !in s.calls || s.calls[c].phase.Finished() then s
      else SetPhase(s, c, Crashed(s.calls[c].phase.Ran(), s.calls[c].phase.Wrote()))
  }

  function Exec(s: State, steps: seq<Step>): State {
    if steps == [] then s else Next(Exec(s, steps[..|steps| - 1]), steps[|steps| - 1])
  }

  // ---------------------------------------------------------------- what every step keeps

  /** Some effect of `c` ran. */
  predicate InLog(log: seq<Effect>, c: Caller) {
    exists i :: 0 <= i < |log| && log[i].c == c
  }

  /** The effect of `c` ran and returned `raw`. */
  predicate Produced(log: seq<Effect>, c: Caller, raw: string) {
    Effect(c, Some(raw)) in log
  }

  /** What a call's phase says about the table and the log. */
  predicate CallOk(s: State, c: Caller)
    requires c in s.calls
  {
    var (key, phase) := (s.calls[c].key, s.calls[c].phase);
    && (phase.Wrote() <==> key in s.writer && s.writer[key] == c)
    && (phase.Beaten? ==> key in s.rows)
    && (phase.Recorded? || phase.Found? ==> key in s.rows && phase.stored == s.rows[key])
    && (phase.Returned? ==> key in s.rows && phase.result == s.rows[key])
    && (phase.Holding? ==> Produced(s.log, c, phase.raw))
    && (phase.Wrote() ==> phase.Ran())
    && (phase.Ran() <==> InLog(s.log, c))
  }

  /** Each row has a writer of its own, whose effect returned what the row holds. */
  predicate RowOk(s: State, key: Key)
    requires key in s.rows && key in s.writer
  {
    var c := s.writer[key];
    && c in s.calls && s.calls[c].key == key && s.calls[c].phase.Wrote()
    && Produced(s.log, c, s.rows[key])
  }

  ghost predicate Inv(s: State) {
    && s.rows.Keys == s.writer.Keys
    && (forall c :: c in s.calls ==> CallOk(s, c))
    && (forall key :: key in s.rows ==> RowOk(s, key))
    && (forall i :: 0 <= i < |s.log| ==> s.log[i].c in s.calls)
    && (forall i, j :: 0 <= i < j < |s.log| ==> s.log[i].c != s.log[j].c)
  }

  lemma EmptyIsValid()
    ensures Inv(EMPTY)
  {
  }

  /** What later states keep: rows and writers, keys, finished calls, and the order of effects. */
  predicate Grows(s: State, s': State) {
    && (forall key :: key in s.rows ==> key in s'.rows && s'.rows[key] == s.rows[key])
    && (forall key :: key in s.writer ==> key in s'.writer && s'.writer[key] == s.writer[key])
    && (forall c :: c in s.calls ==> CallGrows(s, s', c))
    && s.log <= s'.log
  }

  predicate CallGrows(s: State, s': State, c: Caller)
    requires c in s.calls
  {
    && c in s'.calls && s'.calls[c].key == s.calls[c].key
    && (s.calls[c].phase.Wrote() ==> s'.calls[c].phase.Wrote())
    && (s.calls[c].phase.Skipping() ==> s'.calls[c].phase.Skipping())
    && (s.calls[c].phase.Trying() ==> s'.calls[c].phase.Trying())
    && (s.calls[c].phase.Finished() ==> s'.calls[c] == s.calls[c])
  }

  lemma NextGrows(s: State, step: Step)
    requires s.rows.Keys == s.writer.Keys
    ensures Grows(s, Next(s, step)) && Next(s, step).rows.Keys == Next(s, step).writer.Keys
  {
    hide Next;
    TableGrows(s, step);
    forall c | c in s.calls ensures CallGrows(s, Next(s, step), c) { NextCallGrows(s, step, c); }
  }

  lemma TableGrows(s: State, step: Step)
    requires s.rows.Keys == s.writer.Keys
    ensures var s' := Next(s, step);
            && s'.rows.Keys == s'.writer.Keys && s.log <= s'.log
            && (forall key :: key in s.rows ==> key in s'.rows && s'.rows[key] == s.rows[key])
            && (forall key :: key in s.writer ==> key in s'.writer && s'.writer[key] == s.writer[key])
  {
  }

  lemma NextCallGrows(s: State, step: Step, c: Caller)
    requires c in s.calls
    ensures CallGrows(s, Next(s, step), c) && (c != step.c ==> Next(s, step).calls[c] == s.calls[c])
  {
  }

  lemma LogGrows(s: State, step: Step, c: Caller)
    ensures var s' := Next(s, step);
            && (InLog(s.log, c) ==> InLog(s'.log, c))
            && (InLog(s'.log, c) && !InLog(s.log, c) ==> step.Perform? && step.c == c && At(s, c, Missed))
            && (step.Perform? && step.c == c && At(s, c, Missed) ==> InLog(s'.log, c))
  {
    var s' := Next(s, step);
    if i :| 0 <= i < |s.log| && s.log[i].c == c { assert s'.log[i].c == c; }
    if step.Perform? && step.c == c && At(s, c, Missed) { assert s'.log[|s.log|].c == c; }
  }

  lemma NextCallOk(s: State, step: Step, c: Caller)
    requires Inv(s) && c in Next(s, step).calls
    ensures CallOk(Next(s, step), c)
  {
    hide InLog, Next, CallOk, RowOk;
    LogGrows(s, step, c);
    if c != step.c {
      OthersAppear(s, step, c);
      OtherCallOk(s, step, c);
    } else if step.Lookup? && c !in s.calls {
      NoLogYet(s, c);
      NewCallOk(s, step);
    } else {
      if !step.Lookup? { OthersAppear(s, step, c); }
      OwnCallOk(s, step);
    }
  }

  lemma OthersAppear(s: State, step: Step, c: Caller)
    requires c in Next(s, step).calls && !(step.Lookup? && c == step.c)
    ensures c in s.calls
  {
  }

  /** A step of one call does not touch another. */
  lemma OtherCallOk(s: State, step: Step, c: Caller)
    requires Inv(s) && c in s.calls && c != step.c
    requires InLog(Next(s, step).log, c) <==> InLog(s.log, c)
    ensures c in Next(s, step).calls && CallOk(Next(s, step), c)
  {
    hide InLog, RowOk, Next;
    assert CallOk(s, c);
    TableGrows(s, step);
    NextCallGrows(s, step, c);
    NewWriter(s, step);
  }

  /** Only the call whose step it is can become a writer. */
  lemma NewWriter(s: State, step: Step)
    ensures forall key :: key in Next(s, step).writer && key !in s.writer ==> Next(s, step).writer[key] == step.c
  {
  }

  lemma NewCallOk(s: State, step: Step)
    requires step.Lookup? && step.c !in s.calls
    requires !InLog(s.log, step.c) && forall key :: key in s.writer ==> s.writer[key] != step.c
    ensures CallOk(Next(s, step), step.c)
  {
    hide InLog;
  }

  lemma OwnCallOk(s: State, step: Step)
    requires Inv(s) && step.c in s.calls
    requires InLog(s.log, step.c) ==> InLog(Next(s, step).log, step.c)
    requires InLog(Next(s, step).log, step.c) && !InLog(s.log, step.c) ==> step.Perform? && At(s, step.c, Missed)
    requires step.Perform? && At(s, step.c, Missed) ==> InLog(Next(s, step).log, step.c)
    ensures step.c in Next(s, step).calls && CallOk(Next(s, step), step.c)
  {
    hide InLog, RowOk;
    assert CallOk(s, step.c);
  }

  /** A call that is not there has written nothing and run nothing. */
  lemma NoLogYet(s: State, c: Caller)
    requires Inv(s) && c !in s.calls
    ensures !InLog(s.log, c) && forall key :: key in s.writer ==> s.writer[key] != c
  {
    forall key | key in s.writer ensures s.writer[key] != c { assert RowOk(s, key); }
  }

  lemma NextRowOk(s: State, step: Step, key: Key)
    requires Inv(s) && key in Next(s, step).rows
    ensures key in Next(s, step).writer && RowOk(Next(s, step), key)
  {
    hide Next, CallOk, InLog;
    TableGrows(s, step);
    if key in s.rows {
      assert RowOk(s, key);
      NextCallGrows(s, step, s.writer[key]);
      assert forall e :: e in s.log ==> e in Next(s, step).log;
    } else {
      NewRow(s, step, key);
      assert CallOk(s, step.c);
      NewRowOk(s, step, key);
    }
  }

  lemma NewRow(s: State, step: Step, key: Key)
    requires key in Next(s, step).rows && key !in s.rows
    ensures step.Insert? && step.c in s.calls && s.calls[step.c].key == key && s.calls[step.c].phase.Holding?
  {
  }

  lemma NewRowOk(s: State, step: Step, key: Key)
    requires step.Insert? && step.c in s.calls && s.calls[step.c].key == key && key !in s.rows
    requires s.calls[step.c].phase.Holding? && CallOk(s, step.c)
    ensures key in Next(s, step).rows && key in Next(s, step).writer && RowOk(Next(s, step), key)
  {
    hide InLog;
  }

  lemma NextLogOk(s: State, step: Step)
    requires Inv(s)
    ensures forall i :: 0 <= i < |Next(s, step).log| ==> Next(s, step).log[i].c in Next(s, step).calls
    ensures forall i, j :: 0 <= i < j < |Next(s, step).log| ==> Next(s, step).log[i].c != Next(s, step).log[j].c
  {
    hide RowOk;
    if step.c in s.calls { assert CallOk(s, step.c); }
  }

  lemma NextKeeps(s: State, step: Step)
    requires Inv(s)
    ensures Inv(Next(s, step)) && Grows(s, Next(s, step))
  {
    hide Next, RowOk, CallOk;
    var s' := Next(s, step);
    NextGrows(s, step);
    forall c | c in s'.calls ensures CallOk(s', c) { NextCallOk(s, step, c); }
    forall key | key in s'.rows ensures RowOk(s', key) { NextRowOk(s, step, key); }
    NextLogOk(s, step);
  }

  lemma {:induction false} ExecKeeps(s: State, steps: seq<Step>)
    requires Inv(s)
    ensures Inv(Exec(s, steps)) && Grows(s, Exec(s, steps))
    decreases |steps|
  {
    hide Next, Inv;
    if steps != [] {
      var init := steps[..|steps| - 1];
      ExecKeeps(s, init);
      NextKeeps(Exec(s, init), steps[|steps| - 1]);
    }
  }

  lemma {:induction false} Reached(steps: seq<Step>)
    ensures Inv(Exec(EMPTY, steps))
  {
    hide Inv, Exec;
    EmptyIsValid();
    ExecKeeps(EMPTY, steps);
  }

  // ---------------------------------------------------------------- the guarantees

  /**
   Agreement: under any interleaving and any crashes, a key is recorded exactly when it has a
   writer, and the record is what that call's effect returned. A call that returned under the
   key returned the record, and was told it was first exactly if it is the writer.
   */
  lemma {:induction false} Agreement(steps: seq<Step>, key: Key, c: Caller)
    ensures var s := Exec(EMPTY, steps);
            && (key in s.rows <==> key in s.writer)
            && (key in s.rows ==>
                  && s.writer[key] in s.calls && s.calls[s.writer[key]].key == key
                  && Produced(s.log, s.writer[key], s.rows[key]))
            && (c in s.calls && s.calls[c].key == key && s.calls[c].phase.Returned? ==>
                  && key in s.rows && s.calls[c].phase.result == s.rows[key]
                  && (!s.calls[c].phase.skipped <==> s.writer[key] == c))
  {
    hide Exec;
    Reached(steps);
    var s := Exec(EMPTY, steps);
    assert key in s.rows ==> RowOk(s, key);
    assert c in s.calls ==> CallOk(s, c);
  }

  /** A record, and who wrote it, never change, whatever happens later. */
  lemma {:induction false} RecordsNeverChange(steps: seq<Step>, later: seq<Step>, key: Key)
    requires key in Exec(EMPTY, steps).rows
    ensures var (s, s') := (Exec(EMPTY, steps), Exec(Exec(EMPTY, steps), later));
            && key in s'.rows && s'.rows[key] == s.rows[key]
            && key in s.writer && key in s'.writer && s'.writer[key] == s.writer[key]
  {
    hide Exec, CallOk, RowOk;
    Reached(steps);
    ExecKeeps(Exec(EMPTY, steps), later);
  }

  /**
   Once a key is recorded, its effect runs again only in calls that had already looked up and
   missed, and at most once in each: a call that looks up later never runs it.
   */
  lemma {:induction false} EffectsAfterRecord(steps: seq<Step>, later: seq<Step>, key: Key, i: nat)
    requires key in Exec(EMPTY, steps).rows
    requires |Exec(EMPTY, steps).log| <= i < |Exec(Exec(EMPTY, steps), later).log|
    ensures var (s, s') := (Exec(EMPTY, steps), Exec(Exec(EMPTY, steps), later));
            && s'.log[i].c in s'.calls
            && (s'.calls[s'.log[i].c].key == key ==> At(s, s'.log[i].c, Missed))
            && (forall j :: 0 <= j < |s'.log| && s'.log[j].c == s'.log[i].c ==> j == i)
  {
    hide Exec, Inv, Grows, LateSkipped;
    var s := Exec(EMPTY, steps);
    Reached(steps);
    ExecKeeps(s, later);
    LateCallsSkip(s, later, key);
    RanLate(s, Exec(s, later), key, i);
  }

  lemma RanLate(s: State, s': State, key: Key, i: nat)
    requires Inv(s) && Inv(s') && Grows(s, s') && LateSkipped(s, s', key) && |s.log| <= i < |s'.log|
    ensures s'.log[i].c in s'.calls && (s'.calls[s'.log[i].c].key == key ==> At(s, s'.log[i].c, Missed))
    ensures forall j :: 0 <= j < |s'.log| && s'.log[j].c == s'.log[i].c ==> j == i
  {
    hide RowOk, Produced;
    var c := s'.log[i].c;
    assert InLog(s'.log, c) && CallOk(s', c);
    assert forall j, k :: 0 <= j < k < |s'.log| ==> s'.log[j].c != s'.log[k].c;
    assert forall j :: 0 <= j < |s.log| ==> s.log[j] == s'.log[j];
    assert !InLog(s.log, c);
    assert c in s.calls ==> CallOk(s, c) && CallGrows(s, s', c);
  }

  /** Calls of `key` in `s'` that were not there in `s` never ran the effect, and never will. */
  predicate LateSkipped(s: State, s': State, key: Key) {
    forall c :: c in s'.calls && c !in s.calls && s'.calls[c].key == key ==>
      s'.calls[c].phase.Skipping()
  }

  lemma LateStep(s: State, s': State, step: Step, key: Key)
    requires key in s'.rows && LateSkipped(s, s', key)
    ensures LateSkipped(s, Next(s', step), key)
  {
    hide Next;
    var s'' := Next(s', step);
    forall c | c in s''.calls && c !in s.calls && s''.calls[c].key == key
      ensures s''.calls[c].phase.Skipping()
    {
      if c in s'.calls { NextCallGrows(s', step, c); }
      LateCall(s', step, c);
    }
  }

  lemma LateCall(s: State, step: Step, c: Caller)
    requires c in Next(s, step).calls && Next(s, step).calls[c].key in s.rows
    requires c in s.calls ==> s.calls[c].phase.Skipping()
    ensures Next(s, step).calls[c].phase.Skipping()
  {
  }

  lemma {:induction false} LateCallsSkip(s: State, later: seq<Step>, key: Key)
    requires Inv(s) && key in s.rows
    ensures LateSkipped(s, Exec(s, later), key)
    decreases |later|
  {
    hide Next, Inv, LateSkipped;
    if later == [] {
      assert LateSkipped(s, s, key) by { LateNone(s, key); }
    } else {
      var init := later[..|later| - 1];
      LateCallsSkip(s, init, key);
      ExecKeeps(s, init);
      LateStep(s, Exec(s, init), later[|later| - 1], key);
    }
  }

  lemma LateNone(s: State, key: Key)
    ensures LateSkipped(s, s, key)
  {
  }

  // ---------------------------------------------------------------- what a caller is told

  /** Step `i` is the lookup with which call `c` began, under `key`. */
  predicate Begins(steps: seq<Step>, i: nat, c: Caller, key: Key) {
    i < |steps| && steps[i] == Lookup(c, key) && c !in Exec(EMPTY, steps[..i]).calls
  }

  /** Every call began with a lookup under its key. */
  lemma {:induction false} EveryCallBegins(steps: seq<Step>, c: Caller)
    requires c in Exec(EMPTY, steps).calls
    ensures exists i: nat :: Begins(steps, i, c, Exec(EMPTY, steps).calls[c].key)
  {
    hide Next;
    var init, last := steps[..|steps| - 1], steps[|steps| - 1];
    var key := Exec(EMPTY, steps).calls[c].key;
    if c in Exec(EMPTY, init).calls {
      EveryCallBegins(init, c);
      NextCallGrows(Exec(EMPTY, init), last, c);
      var i: nat :| Begins(init, i, c, key);
      assert init[..i] == steps[..i];
      assert Begins(steps, i, c, key);
    } else {
      AppearsByLookup(Exec(EMPTY, init), last, c);
      assert Begins(steps, |steps| - 1, c, key);
    }
  }

  lemma AppearsByLookup(s: State, step: Step, c: Caller)
    requires c in Next(s, step).calls && c !in s.calls
    ensures step == Lookup(c, Next(s, step).calls[c].key)
  {
  }

  /** The lookup settles whether a call is to run the effect. */
  lemma {:induction false} LookupSettles(steps: seq<Step>, i: nat, c: Caller, key: Key)
    requires Begins(steps, i, c, key)
    ensures var s := Exec(EMPTY, steps);
            && c in s.calls && s.calls[c].key == key
            && (if key in Exec(EMPTY, steps[..i]).rows then s.calls[c].phase.Skipping() else s.calls[c].phase.Trying())
  {
    hide Exec, Inv, Next;
    var before, after := Exec(EMPTY, steps[..i]), Exec(EMPTY, steps[..i + 1]);
    FirstStep(steps, i);
    Reached(steps[..i + 1]);
    ExecKeeps(after, steps[i + 1..]);
    ExecSplit(EMPTY, steps[..i + 1], steps[i + 1..]);
    assert steps[..i + 1] + steps[i + 1..] == steps;
    LookedUp(before, c, key);
    assert CallGrows(after, Exec(EMPTY, steps), c);
  }

  lemma {:induction false} FirstStep(steps: seq<Step>, i: nat)
    requires i < |steps|
    ensures Exec(EMPTY, steps[..i + 1]) == Next(Exec(EMPTY, steps[..i]), steps[i])
  {
    hide Next;
    assert steps[..i + 1][..i] == steps[..i] && steps[..i + 1][i] == steps[i];
  }

  lemma LookedUp(s: State, c: Caller, key: Key)
    requires c !in s.calls
    ensures var s' := Next(s, Lookup(c, key));
            && c in s'.calls && s'.calls[c].key == key
            && (if key in s.rows then s'.calls[c].phase.Skipping() else s'.calls[c].phase.Missed?)
  {
  }

  /**
   "Skipped reports that the effect was not called" holds of a call exactly unless nothing was
   recorded when it looked up and another call's insert won; it ran the effect exactly when
   nothing was recorded when it looked up.
   */
  lemma {:induction false} SkippedAfterRunningIff(steps: seq<Step>, i: nat, c: Caller, key: Key)
    requires Begins(steps, i, c, key)
    ensures var s := Exec(EMPTY, steps);
            && c in s.calls
            && (s.calls[c].phase.Returned? ==>
                  && key in s.writer
                  && (s.calls[c].phase.ran <==> key !in Exec(EMPTY, steps[..i]).rows)
                  && (s.calls[c].phase.skipped && s.calls[c].phase.ran <==>
                      key !in Exec(EMPTY, steps[..i]).rows && s.writer[key] != c))
  {
    hide Exec;
    LookupSettles(steps, i, c, key);
    Agreement(steps, key, c);
  }

  /**
   "At most once per key": of two calls that did not crash and got past their lookup, both run the
   effect exactly when nothing was recorded at either one's lookup.
   */
  lemma {:induction false} BothRanIff(steps: seq<Step>, i: nat, j: nat, c: Caller, c': Caller, key: Key)
    requires Begins(steps, i, c, key) && Begins(steps, j, c', key)
    ensures var s := Exec(EMPTY, steps);
            && c in s.calls && c' in s.calls
            && (Settled(s.calls[c].phase) && Settled(s.calls[c'].phase) ==>
                  (s.calls[c].phase.Ran() && s.calls[c'].phase.Ran() <==>
                   key !in Exec(EMPTY, steps[..i]).rows && key !in Exec(EMPTY, steps[..j]).rows))
  {
    hide Exec;
    LookupSettles(steps, i, c, key);
    LookupSettles(steps, j, c', key);
  }

  predicate Settled(phase: Phase) {
    !phase.Missed? && !phase.Crashed?
  }

  /** Two calls that overlap: both run the effect, and the one that is beaten is told it skipped. */
  lemma {:induction false} OverlappingCallsBothRun(x: string, y: string)
    ensures var s := Exec(EMPTY, [Lookup("a", "k"), Lookup("b", "k"), Perform("a", Some(x)), Perform("b", Some(y)),
                                  Insert("a"), Insert("b"), Reread("b"), Return("b")]);
            && s.log == [Effect("a", Some(x)), Effect("b", Some(y))]
            && At(s, "b", Returned(x, true, true))
  {
    hide Next;
    var steps := [Lookup("a", "k"), Lookup("b", "k"), Perform("a", Some(x)), Perform("b", Some(y)),
                  Insert("a"), Insert("b"), Reread("b"), Return("b")];
    assert steps[..0] == [] && steps[..8] == steps;
    assert Exec(EMPTY, steps[..0]) == EMPTY;
    FirstStep(steps, 0); FirstStep(steps, 1); FirstStep(steps, 2); FirstStep(steps, 3);
    FirstStep(steps, 4); FirstStep(steps, 5); FirstStep(steps, 6); FirstStep(steps, 7);
    BothPerform(x, y);
    OneInserts(x, y);
  }

  lemma BothPerform(x: string, y: string)
    ensures var missed := Next(Next(EMPTY, Lookup("a", "k")), Lookup("b", "k"));
            Next(Next(missed, Perform("a", Some(x))), Perform("b", Some(y))) ==
            State(map[], map[], map["a" := Call("k", Holding(x)), "b" := Call("k", Holding(y))],
                  [Effect("a", Some(x)), Effect("b", Some(y))])
  {
  }

  lemma OneInserts(x: string, y: string)
    ensures var log := [Effect("a", Some(x)), Effect("b", Some(y))];
            var s := State(map[], map[], map["a" := Call("k", Holding(x)), "b" := Call("k", Holding(y))], log);
            var inserted := Next(Next(s, Insert("a")), Insert("b"));
            Next(Next(inserted, Reread("b")), Return("b")) ==
            State(map["k" := x], map["k" := "a"],
                  map["a" := Call("k", Recorded(x)), "b" := Call("k", Returned(x, true, true))], log)
  {
  }

  // ---------------------------------------------------------------- failures and crashes

  /** The table changes only by an insert of a call that is from then on the key's writer. */
  lemma {:induction false} OnlyWritersChangeRows(steps: seq<Step>, i: nat)
    requires i < |steps| && Exec(EMPTY, steps[..i + 1]).rows != Exec(EMPTY, steps[..i]).rows
    ensures var (s, before, c) := (Exec(EMPTY, steps), Exec(EMPTY, steps[..i]), steps[i].c);
            && steps[i].Insert? && c in before.calls
            && before.calls[c].key !in before.rows
            && before.calls[c].key in s.writer && s.writer[before.calls[c].key] == c
  {
    hide Inv, Next;
    var before, c := Exec(EMPTY, steps[..i]), steps[i].c;
    assert steps[..i + 1][..i] == steps[..i] && steps[..i + 1][i] == steps[i];
    assert Exec(EMPTY, steps[..i + 1]) == Next(before, steps[i]);
    RowsChange(before, steps[i]);
    Reached(steps[..i + 1]);
    ExecKeeps(Exec(EMPTY, steps[..i + 1]), steps[i + 1..]);
    ExecSplit(EMPTY, steps[..i + 1], steps[i + 1..]);
    assert steps[..i + 1] + steps[i + 1..] == steps;
  }

  lemma RowsChange(s: State, step: Step)
    requires Next(s, step).rows != s.rows
    ensures step.Insert? && step.c in s.calls && s.calls[step.c].key !in s.rows
    ensures s.calls[step.c].key in Next(s, step).writer && Next(s, step).writer[s.calls[step.c].key] == step.c
  {
  }

  lemma {:induction false} ExecSplit(s: State, first: seq<Step>, later: seq<Step>)
    ensures Exec(s, first + later) == Exec(Exec(s, first), later)
    decreases |later|
  {
    hide Next;
    if later == [] {
      assert first + later == first;
    } else {
      var init := later[..|later| - 1];
      assert (first + later)[..|first + later| - 1] == first + init;
      ExecSplit(s, first, init);
    }
  }

  /**
   A call whose effect failed, or that crashed without having inserted, is nobody's writer, in
   any continuation, and no step of it ever changed the table.
   */
  lemma {:induction false} FailureRecordsNothing(steps: seq<Step>, later: seq<Step>, c: Caller, key: Key, i: nat)
    requires c in Exec(EMPTY, steps).calls
    requires var phase := Exec(EMPTY, steps).calls[c].phase; phase.Failed? || (phase.Crashed? && !phase.recorded)
    ensures var s := Exec(EMPTY, steps + later);
            && !(key in s.writer && s.writer[key] == c)
            && (i < |steps + later| && (steps + later)[i].c == c ==>
                  Exec(EMPTY, (steps + later)[..i + 1]).rows == Exec(EMPTY, (steps + later)[..i]).rows)
  {
    hide Exec, Inv, Next;
    Reached(steps);
    ExecKeeps(Exec(EMPTY, steps), later);
    ExecSplit(EMPTY, steps, later);
    Reached(steps + later);
    WritersWrote(Exec(EMPTY, steps + later), c);
    if i < |steps + later| && Exec(EMPTY, (steps + later)[..i + 1]).rows != Exec(EMPTY, (steps + later)[..i]).rows {
      OnlyWritersChangeRows(steps + later, i);
    }
  }

  lemma WritersWrote(s: State, c: Caller)
    requires Inv(s) && c in s.calls
    ensures !s.calls[c].phase.Wrote() ==> forall key :: key in s.writer ==> s.writer[key] != c
  {
    hide CallOk;
    forall key | key in s.writer && !s.calls[c].phase.Wrote() ensures s.writer[key] != c { assert RowOk(s, key); }
  }

  /** A call that crashes after its insert is the recorder all the same, and nobody hears it was first. */
  lemma {:induction false} CrashAfterInsertRecords(raw: string)
    ensures var s := Exec(EMPTY, [Lookup("c", "k"), Perform("c", Some(raw)), Insert("c"), Crash("c")]);
            && "k" in s.rows && s.rows["k"] == raw && "k" in s.writer && s.writer["k"] == "c"
            && At(s, "c", Crashed(true, true))
  {
    hide Next;
    var steps := [Lookup("c", "k"), Perform("c", Some(raw)), Insert("c"), Crash("c")];
    assert steps[..3][..2] == steps[..2] && steps[..2][..1] == steps[..1] && steps[..1][..0] == [];
    assert Exec(EMPTY, []) == EMPTY;
    assert Exec(EMPTY, steps[..1]) == Next(EMPTY, steps[0]);
    assert Exec(EMPTY, steps[..2]) == Next(Exec(EMPTY, steps[..1]), steps[1]);
    assert Exec(EMPTY, steps[..3]) == Next(Exec(EMPTY, steps[..2]), steps[2]);
    assert Exec(EMPTY, steps) == Next(Exec(EMPTY, steps[..3]), steps[3]);
    FourSteps(raw);
  }

  lemma FourSteps(raw: string)
    ensures var missed := Next(EMPTY, Lookup("c", "k"));
            var holding := Next(missed, Perform("c", Some(raw)));
            Next(Next(holding, Insert("c")), Crash("c")) ==
            State(map["k" := raw], map["k" := "c"], map["c" := Call("k", Crashed(true, true))],
                  [Effect("c", Some(raw))])
  {
  }

  // ---------------------------------------------------------------- one call, as it runs

  /** The table, with one call's sequence of statements. */
  class Table {
    var rows: map<Key, string>

    constructor ()
      ensures rows == map[]
    {
      rows := map[];
    }

    /**
     `effect` is what the effect would return, and `others` what other calls record while it
     runs. The result is what the table holds, and the effect runs only if nothing was there.
     */
    method Do(key: Key, effect: Option<string>, others: map<Key, string>)
      returns (result: Option<string>, skipped: bool, ran: bool)
      modifies this
      ensures ran <==> key !in old(rows)
      ensures ran && effect.None? ==> result == None && rows == others + old(rows)
      ensures !ran ==> rows == old(rows)
      ensures ran && effect.Some? ==>
                rows == (if key in others then others + old(rows) else (others + old(rows))[key := effect.value])
      ensures !ran || effect.Some? ==> key in rows && result == Some(rows[key])
      ensures result.Some? ==> (skipped <==> key in old(rows) || key in others)
    {
      if key in rows { return Some(rows[key]), true, false; }
      rows := others + rows;
      if effect.None? { return None, false, true; }
      if key !in rows {
        rows := rows[key := effect.value];
        return Some(effect.value), false, true;
      }
      return Some(rows[key]), true, true;
    }
  }
}

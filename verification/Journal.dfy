/** Reading a run's history back (internal/event/log.go): contiguity is checked as rows arrive. */
module Journal {
  import opened Common
  import opened Events
  import opened Replay
  import opened Tables
  import opened System
  import opened Guarantees

  datatype ReadError = Gap(expected: int, found: int) | Unrecognised(seqNo: int)

  /** The rows of the query: sequence numbers above `after`, in order. */
  function Rows(journal: seq<Event>, after: int): seq<Event> {
    if journal == [] then []
    else
      var init, last := journal[..|journal| - 1], journal[|journal| - 1];
      Rows(init, after) + if last.seqNo > after then [last] else []
  }

  predicate RowOk(rows: seq<Event>, after: int, i: int)
    requires 0 <= i < |rows|
  {
    rows[i].seqNo == after + 1 + i && rows[i].payload.Known()
  }

  predicate Contiguous(rows: seq<Event>, after: int) {
    forall i :: 0 <= i < |rows| ==> RowOk(rows, after, i)
  }

  /** Row `i` is the first that may not follow the ones before it, and `e` says why. */
  predicate FirstBad(rows: seq<Event>, after: int, i: int, e: ReadError) {
    && 0 <= i < |rows|
    && !RowOk(rows, after, i)
    && (forall j :: 0 <= j < i ==> RowOk(rows, after, j))
    && e == if rows[i].seqNo != after + 1 + i then Gap(after + 1 + i, rows[i].seqNo) else Unrecognised(rows[i].seqNo)
  }

  /** All rows are returned, or the first bad one is reported. */
  method ReadFrom(rows: seq<Event>, after: int) returns (r: Result<seq<Event>, ReadError>)
    ensures r.Ok? ==> r.value == rows
    ensures r.Ok? <==> Contiguous(rows, after)
    ensures r.Err? ==> exists i :: FirstBad(rows, after, i, r.error)
  {
    var events, expected := [], after + 1;
    for i := 0 to |rows|
      invariant expected == after + 1 + i && events == rows[..i]
      invariant forall j :: 0 <= j < i ==> RowOk(rows, after, j)
    {
      if rows[i].seqNo != expected {
        assert FirstBad(rows, after, i, Gap(expected, rows[i].seqNo));
        return Err(Gap(expected, rows[i].seqNo));
      }
      expected := expected + 1;
      if !rows[i].payload.Known() {
        assert FirstBad(rows, after, i, Unrecognised(rows[i].seqNo));
        return Err(Unrecognised(rows[i].seqNo));
      }
      events := events + [rows[i]];
    }
    return Ok(events);
  }

  /** Of a contiguous history, the query returns a suffix. */
  lemma {:induction false} RowsAreSuffix(journal: seq<Event>, after: int)
    requires forall i :: 0 <= i < |journal| ==> journal[i].seqNo == i + 1
    ensures Rows(journal, after) ==
            if after < 0 then journal else if after <= |journal| then journal[after..] else []
  {
    if journal != [] {
      var init, last := journal[..|journal| - 1], journal[|journal| - 1];
      RowsAreSuffix(init, after);
      assert journal == init + [last];
      if 0 <= after <= |init| { SuffixSnoc(init, last, after); }
    }
  }

  lemma SuffixSnoc(init: seq<Event>, last: Event, k: nat)
    requires k <= |init|
    ensures init[k..] + [last] == (init + [last])[k..]
  {
  }

  /**
   Tailing: of any reachable run, everything after position `after` is read back and no gap is
   reported, exactly when `after` is not negative. Then what was read before plus what is read
   now is the whole history.
   */
  lemma {:induction false} TailReadsBack(schedule: seq<Txn>, id: RunId, after: int)
    requires id in Exec(EMPTY, schedule).runs
    ensures var (j, rows) := (RunAt(schedule, id).journal, Rows(RunAt(schedule, id).journal, after));
            && (Contiguous(rows, after) <==> after >= 0)
            && (0 <= after <= |j| ==> j[..after] + rows == j)
  {
    hide Exec, Rows, Contiguous;
    JournalShape(schedule, id);
    KnownEvents(schedule, id);
    TailOf(RunAt(schedule, id).journal, after);
  }

  lemma {:induction false} TailOf(journal: seq<Event>, after: int)
    requires forall i :: 0 <= i < |journal| ==> journal[i].seqNo == i + 1 && journal[i].payload.Known()
    requires journal != []
    ensures var rows := Rows(journal, after);
            && (Contiguous(rows, after) <==> after >= 0)
            && (0 <= after <= |journal| ==> journal[..after] + rows == journal)
  {
    hide Rows;
    RowsAreSuffix(journal, after);
    assert after < 0 ==> !RowOk(journal, after, 0);
    if 0 <= after <= |journal| {
      forall i | 0 <= i < |journal| - after ensures RowOk(journal[after..], after, i) {
        assert journal[after..][i] == journal[after + i];
      }
    }
  }

  /** From a negative position every reachable run reports a gap before its first event. */
  lemma {:induction false} NegativeTailReportsGap(schedule: seq<Txn>, id: RunId, after: int)
    requires id in Exec(EMPTY, schedule).runs && after < 0
    ensures FirstBad(Rows(RunAt(schedule, id).journal, after), after, 0, Gap(after + 1, 1))
  {
    hide Exec, Rows;
    JournalShape(schedule, id);
    RowsAreSuffix(RunAt(schedule, id).journal, after);
  }

  /** For instance a run that was just created, read from -1. */
  lemma {:induction false} TailFromMinusOne()
    ensures var created := [CreateRunTx("r", OneStep(), OneStep().hash, "", 0, 0)];
            && "r" in Exec(EMPTY, created).runs
            && FirstBad(Rows(RunAt(created, "r").journal, -1), -1, 0, Gap(0, 1))
  {
    hide Rows, InsertTasks;
    var created := [CreateRunTx("r", OneStep(), OneStep().hash, "", 0, 0)];
    assert created[..0] == [];
    assert Exec(EMPTY, created) == Apply(EMPTY, created[0]);
    NegativeTailReportsGap(created, "r", -1);
  }

  lemma {:induction false} KnownEvents(schedule: seq<Txn>, id: RunId)
    requires id in Exec(EMPTY, schedule).runs
    ensures forall i :: 0 <= i < |RunAt(schedule, id).journal| ==> RunAt(schedule, id).journal[i].payload.Known()
  {
    hide Exec, Fold;
    ReplayRefinesEngine(schedule, id);
    var j := RunAt(schedule, id).journal;
    ReduceAcceptsIff(j);
    forall i | 0 <= i < |j| ensures j[i].payload.Known() { assert Admissible(j, i); }
  }
}

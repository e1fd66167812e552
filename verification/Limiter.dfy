/**
 The per-client rate limiter (internal/api/access.go): a bounded map of token buckets that
 forgets full ones, against a bucket per client that is never forgotten. Tokens are reals.
 */
module Limiter {
  import opened Common

  const MAX_CLIENTS := 10_000

  datatype Bucket = Bucket(tokens: real, last: Time)

  type Clients = map<string, Bucket>

  /** What config.Validate accepts. */
  datatype Limits = Limits(rate: real, burst: real) {
    ghost predicate Valid() {
      rate > 0.0 && burst >= 1.0
    }
  }

  datatype Answer = Admitted | Denied | NoRoom

  function Seconds(ns: int): real {
    ns as real / SECOND as real
  }

  /** A bucket's level at `now`. */
  function Level(l: Limits, b: Bucket, now: Time): real {
    var refilled := b.tokens + Seconds(now - b.last) * l.rate;
    if refilled > l.burst then l.burst else refilled
  }

  // ---------------------------------------------------------------- the bounded map

  function IdleUntilFull(l: Limits): int
    requires l.rate != 0.0
  {
    (l.burst / l.rate * SECOND as real).Floor + SECOND
  }

  function EvictRefilled(l: Limits, clients: Clients, now: Time): Clients
    requires l.rate > 0.0
  {
    map k | k in clients && now - clients[k].last < IdleUntilFull(l) :: clients[k]
  }

  /** Take a token if there is one; either way the level is brought up to date. */
  function Spend(l: Limits, clients: Clients, key: string, b: Bucket, now: Time): (Clients, Answer) {
    var level := Level(l, b, now);
    if level < 1.0 then (clients[key := Bucket(level, now)], Denied)
    else (clients[key := Bucket(level - 1.0, now)], Admitted)
  }

  function Allow(l: Limits, clients: Clients, key: string, now: Time): (Clients, Answer)
    requires l.rate > 0.0
  {
    if key in clients then Spend(l, clients, key, clients[key], now)
    else
      var kept := if |clients| >= MAX_CLIENTS then EvictRefilled(l, clients, now) else clients;
      if |kept| >= MAX_CLIENTS then (kept, NoRoom)
      else Spend(l, kept, key, Bucket(l.burst, now), now)
  }

  class ClientLimiter {
    const limits: Limits
    var clients: Clients

    constructor (l: Limits)
      ensures limits == l && clients == map[]
    {
      limits, clients := l, map[];
    }

    method Reserve(key: string, now: Time)
      modifies this
      ensures clients == old(clients)[key := Bucket(limits.burst, now)]
    {
      clients := clients[key := Bucket(limits.burst, now)];
    }

    /** The deletions happen in map order, which does not matter. */
    method Evict(now: Time)
      requires limits.rate > 0.0
      modifies this
      ensures clients == EvictRefilled(limits, old(clients), now)
    {
      var idle := IdleUntilFull(limits);
      var todo := clients.Keys;
      while todo != {}
        invariant todo <= clients.Keys <= old(clients).Keys
        invariant forall k :: k in old(clients) && k !in todo ==>
                    (k in clients <==> now - old(clients)[k].last < idle)
        invariant forall k :: k in clients ==> clients[k] == old(clients)[k]
        decreases |todo|
      {
        var k :| k in todo;
        if now - clients[k].last >= idle { clients := clients - {k}; }
        todo := todo - {k};
      }
    }

    method AllowClient(key: string, now: Time) returns (ok: bool)
      requires limits.rate > 0.0
      modifies this
      ensures (clients, ok) == (Allow(limits, old(clients), key, now).0,
                                Allow(limits, old(clients), key, now).1.Admitted?)
    {
      hide IdleUntilFull, EvictRefilled, Seconds;
      var b := Bucket(limits.burst, now);
      if key in clients {
        b := clients[key];
      } else if |clients| >= MAX_CLIENTS {
        Evict(now);
        if |clients| >= MAX_CLIENTS { return false; }
      }
      var tokens := b.tokens + Seconds(now - b.last) * limits.rate;
      if tokens > limits.burst { tokens := limits.burst; }
      assert tokens == Level(limits, b, now);
      if tokens < 1.0 {
        clients := clients[key := Bucket(tokens, now)];
        return false;
      }
      clients := clients[key := Bucket(tokens - 1.0, now)];
      return true;
    }
  }

  // ---------------------------------------------------------------- the reference

  /** A bucket per client, full until it is first used, and never forgotten. */
  function LevelOf(l: Limits, clients: Clients, key: string, now: Time): real {
    if key in clients then Level(l, clients[key], now) else l.burst
  }

  function Reference(l: Limits, clients: Clients, key: string, now: Time): (Clients, Answer) {
    Spend(l, clients, key, if key in clients then clients[key] else Bucket(l.burst, now), now)
  }

  datatype Request = Request(key: string, at: Time)

  /** The limiter and the reference side by side; a refusal for lack of room is skipped in both. */
  datatype Pair = Pair(bounded: Clients, full: Clients)

  function Step(l: Limits, p: Pair, q: Request): Pair
    requires l.rate > 0.0
  {
    var (bounded, answer) := Allow(l, p.bounded, q.key, q.at);
    Pair(bounded, if answer.NoRoom? then p.full else Reference(l, p.full, q.key, q.at).0)
  }

  function Run(l: Limits, p: Pair, qs: seq<Request>): Pair
    requires l.rate > 0.0
  {
    if qs == [] then p else Step(l, Run(l, p, qs[..|qs| - 1]), qs[|qs| - 1])
  }

  function AnswerAt(l: Limits, p: Pair, qs: seq<Request>, i: nat): Answer
    requires l.rate > 0.0 && i < |qs|
  {
    Allow(l, Run(l, p, qs[..i]).bounded, qs[i].key, qs[i].at).1
  }

  ghost predicate Ordered(start: Time, qs: seq<Request>) {
    && (forall i :: 0 <= i < |qs| ==> start <= qs[i].at)
    && (forall i, j :: 0 <= i < j < |qs| ==> qs[i].at <= qs[j].at)
  }

  /** The limiter at start-up: the configured identities' buckets, reserved full. */
  function Reserved(l: Limits, keys: set<string>, now: Time): Clients {
    map k | k in keys :: Bucket(l.burst, now)
  }

  function Start(l: Limits, keys: set<string>, now: Time): Pair {
    Pair(Reserved(l, keys, now), Reserved(l, keys, now))
  }

  // ---------------------------------------------------------------- refinement

  /** The bounded map holds the reference's buckets; those it forgot are full by now. */
  ghost predicate Linked(l: Limits, p: Pair, now: Time) {
    && (forall k :: k in p.bounded ==> k in p.full && p.bounded[k] == p.full[k])
    && (forall k :: k in p.full && k !in p.bounded ==> Level(l, p.full[k], now) == l.burst)
    && (forall k :: k in p.full ==> 0.0 <= p.full[k].tokens <= l.burst && p.full[k].last <= now)
  }

  lemma SecondsMonotone(a: int, b: int)
    requires a <= b
    ensures Seconds(a) <= Seconds(b)
  {
  }

  /** Time that passes refills a bucket. */
  lemma RefillIsNotNegative(ns: int, rate: real)
    requires ns >= 0 && rate > 0.0
    ensures Seconds(ns) * rate >= 0.0
  {
    assert Seconds(ns) >= 0.0;
  }

  lemma Product(a: real, b: real, rate: real)
    requires a <= b && rate > 0.0
    ensures a * rate <= b * rate
  {
    assert (b - a) * rate >= 0.0;
  }

  /** Idle long enough by the integer test means full by the real one. */
  lemma IdleIsFull(l: Limits, b: Bucket, now: Time)
    requires l.Valid() && 0.0 <= b.tokens && now - b.last >= IdleUntilFull(l)
    ensures Level(l, b, now) == l.burst
  {
    var need := l.burst / l.rate;
    var idle := (now - b.last) as real;
    assert idle >= need * SECOND as real;
    assert Seconds(now - b.last) >= need;
    Product(need, Seconds(now - b.last), l.rate);
    assert need * l.rate == l.burst;
  }

  lemma LevelRises(l: Limits, b: Bucket, now: Time, later: Time)
    requires l.Valid() && now <= later
    ensures Level(l, b, now) <= Level(l, b, later) <= Level(l, b, now) + Seconds(later - now) * l.rate
  {
    var (x, y) := (Seconds(now - b.last), Seconds(later - b.last));
    assert y == x + Seconds(later - now);
    SecondsMonotone(now - b.last, later - b.last);
    Product(x, y, l.rate);
    assert y * l.rate == x * l.rate + Seconds(later - now) * l.rate;
    RefillIsNotNegative(later - now, l.rate);
  }

  lemma LinkedLater(l: Limits, p: Pair, now: Time, later: Time)
    requires l.Valid() && Linked(l, p, now) && now <= later
    ensures Linked(l, p, later)
  {
    hide Level;
    forall k | k in p.full && k !in p.bounded ensures Level(l, p.full[k], later) == l.burst {
      LevelRises(l, p.full[k], now, later);
      LevelCapped(l, p.full[k], later);
    }
  }

  lemma LevelCapped(l: Limits, b: Bucket, now: Time)
    ensures Level(l, b, now) <= l.burst
    ensures l.Valid() && 0.0 <= b.tokens <= l.burst && b.last <= now ==> b.tokens <= Level(l, b, now)
  {
    if l.Valid() && b.last <= now { RefillIsNotNegative(now - b.last, l.rate); }
  }

  lemma EvictKeepsLinked(l: Limits, p: Pair, now: Time)
    requires l.Valid() && Linked(l, p, now)
    ensures Linked(l, p.(bounded := EvictRefilled(l, p.bounded, now)), now)
  {
    hide Level, IdleUntilFull;
    var kept := EvictRefilled(l, p.bounded, now);
    forall k | k in p.full && k !in kept ensures Level(l, p.full[k], now) == l.burst {
      if k in p.bounded { IdleIsFull(l, p.full[k], now); }
    }
  }

  /** One request: same answer as the reference, or no room; the link survives. */
  lemma StepRefines(l: Limits, p: Pair, q: Request)
    requires l.Valid() && Linked(l, p, q.at)
    ensures Linked(l, Step(l, p, q), q.at)
    ensures Allow(l, p.bounded, q.key, q.at).1 in {NoRoom, Reference(l, p.full, q.key, q.at).1}
  {
    hide Level, IdleUntilFull, EvictRefilled;
    var kept := if q.key !in p.bounded && |p.bounded| >= MAX_CLIENTS
      then EvictRefilled(l, p.bounded, q.at) else p.bounded;
    EvictKeepsLinked(l, p, q.at);
    EvictShrinks(l, p.bounded, q.at);
    LevelNow(l, l.burst, q.at);
    LevelCapped(l, if q.key in p.full then p.full[q.key] else Bucket(l.burst, q.at), q.at);
  }

  lemma EvictShrinks(l: Limits, clients: Clients, now: Time)
    requires l.rate > 0.0
    ensures EvictRefilled(l, clients, now).Keys <= clients.Keys
    ensures |EvictRefilled(l, clients, now)| <= |clients|
  {
    hide IdleUntilFull;
    var kept := EvictRefilled(l, clients, now);
    SubsetCard(kept.Keys, clients.Keys);
    assert |kept| == |kept.Keys| && |clients| == |clients.Keys|;
  }

  lemma {:induction false} SubsetCard(a: set<string>, b: set<string>)
    requires a <= b
    ensures |a| <= |b|
  {
    if a != {} {
      var x :| x in a;
      SubsetCard(a - {x}, b - {x});
    }
  }

  lemma LevelNow(l: Limits, tokens: real, now: Time)
    requires tokens <= l.burst
    ensures Level(l, Bucket(tokens, now), now) == tokens
  {
    assert Seconds(now - now) == 0.0;
  }

  lemma {:induction false} RunLinked(l: Limits, keys: set<string>, start: Time, qs: seq<Request>)
    requires l.Valid() && Ordered(start, qs)
    ensures Linked(l, Run(l, Start(l, keys, start), qs), if qs == [] then start else qs[|qs| - 1].at)
    decreases |qs|
  {
    hide Level, Step;
    if qs != [] {
      var init, q := qs[..|qs| - 1], qs[|qs| - 1];
      RunLinked(l, keys, start, init);
      LinkedLater(l, Run(l, Start(l, keys, start), init), if init == [] then start else init[|init| - 1].at, q.at);
      StepRefines(l, Run(l, Start(l, keys, start), init), q);
    }
  }

  /** Forgetting full buckets changes no answer: every answer is the reference's, or no room. */
  lemma {:induction false} ForgettingChangesNothing(l: Limits, keys: set<string>, start: Time, qs: seq<Request>, i: nat)
    requires l.Valid() && Ordered(start, qs) && i < |qs|
    ensures var p := Run(l, Start(l, keys, start), qs[..i]);
            AnswerAt(l, Start(l, keys, start), qs, i) in {NoRoom, Reference(l, p.full, qs[i].key, qs[i].at).1}
  {
    hide Allow, Reference, Linked, Run;
    RunLinked(l, keys, start, qs[..i]);
    var p := Run(l, Start(l, keys, start), qs[..i]);
    LinkedLater(l, p, if i == 0 then start else qs[i - 1].at, qs[i].at);
    StepRefines(l, p, qs[i]);
  }

  /** Clients heard from too recently to be forgotten. */
  function Recent(l: Limits, clients: Clients, now: Time): set<string>
    requires l.rate > 0.0
  {
    set k | k in clients && now < clients[k].last + (l.burst / l.rate * 1_000_000_000.0).Floor + 1_000_000_000
  }

  /** There is no room exactly for a client that is not known while ten thousand others are recent. */
  lemma NoRoomIff(l: Limits, clients: Clients, key: string, now: Time)
    requires l.rate > 0.0
    ensures Allow(l, clients, key, now).1.NoRoom? <==> key !in clients && |Recent(l, clients, now)| >= 10_000
  {
    hide Level;
    var kept := EvictRefilled(l, clients, now);
    assert kept.Keys == Recent(l, clients, now);
    assert |kept| == |kept.Keys| && |clients| == |clients.Keys|;
    SubsetCard(Recent(l, clients, now), clients.Keys);
  }

  /** A level refills at the rate, up to the burst. */
  lemma LevelRefills(l: Limits, b: Bucket, now: Time, later: Time)
    requires l.Valid() && now <= later
    ensures Level(l, b, later) ==
            (var refilled := Level(l, b, now) + Seconds(later - now) * l.rate;
             if refilled > l.burst then l.burst else refilled)
  {
    var (x, y) := (Seconds(now - b.last), Seconds(later - b.last));
    assert y == x + Seconds(later - now);
    assert y * l.rate == x * l.rate + Seconds(later - now) * l.rate;
    RefillIsNotNegative(later - now, l.rate);
  }

  /**
   Who is admitted: with room, exactly a client whose bucket, never forgotten, holds a token; it
   then pays exactly one, and a client that is denied, or that asks in vain for room, pays nothing.
   */
  lemma {:induction false} AdmittedIff(l: Limits, keys: set<string>, start: Time, qs: seq<Request>, i: nat, key: string)
    requires l.Valid() && Ordered(start, qs) && i < |qs|
    ensures var (p, p') := (Run(l, Start(l, keys, start), qs[..i]), Run(l, Start(l, keys, start), qs[..i + 1]));
            var (answer, q) := (AnswerAt(l, Start(l, keys, start), qs, i), qs[i]);
            && (answer.NoRoom? <==> q.key !in p.bounded && |Recent(l, p.bounded, q.at)| >= 10_000)
            && (answer.Admitted? <==> !answer.NoRoom? && LevelOf(l, p.full, q.key, q.at) >= 1.0)
            && LevelOf(l, p'.full, key, q.at) ==
               LevelOf(l, p.full, key, q.at) - if q.key == key && answer.Admitted? then 1.0 else 0.0
  {
    hide Level, Linked, Ordered, Recent, Step;
    var p, q := Run(l, Start(l, keys, start), qs[..i]), qs[i];
    assert qs[..i + 1][..i] == qs[..i];
    LinkedBefore(l, keys, start, qs, i);
    NoRoomIff(l, p.bounded, q.key, q.at);
    StepRefines(l, p, q);
    StepCosts(l, p, q, key);
    LevelNow(l, l.burst, q.at);
  }

  // ---------------------------------------------------------------- bounds

  /** The map never outgrows its limit, except by what was reserved at start-up. */
  lemma {:induction false} MapIsBounded(l: Limits, keys: set<string>, start: Time, qs: seq<Request>)
    requires l.Valid()
    ensures var n := |Run(l, Start(l, keys, start), qs).bounded|; n <= MAX_CLIENTS || n <= |keys|
    decreases |qs|
  {
    hide Level, EvictRefilled;
    if qs == [] {
      assert Reserved(l, keys, start).Keys == keys;
      assert |Reserved(l, keys, start)| == |Reserved(l, keys, start).Keys|;
    } else {
      var init, q := qs[..|qs| - 1], qs[|qs| - 1];
      MapIsBounded(l, keys, start, init);
      var clients := Run(l, Start(l, keys, start), init).bounded;
      EvictShrinks(l, clients, q.at);
    }
  }

  /** How often `key` was admitted among requests i..j. */
  function Admissions(l: Limits, p: Pair, qs: seq<Request>, key: string, i: nat, j: nat): nat
    requires l.rate > 0.0 && i <= j <= |qs|
    decreases j - i
  {
    if i == j then 0
    else Admissions(l, p, qs, key, i, j - 1)
         + if qs[j - 1].key == key && AnswerAt(l, p, qs, j - 1).Admitted? then 1 else 0
  }

  /** One request costs the reference bucket exactly what it admits. */
  lemma StepCosts(l: Limits, p: Pair, q: Request, key: string)
    requires l.Valid() && Linked(l, p, q.at)
    ensures LevelOf(l, Step(l, p, q).full, key, q.at) ==
            LevelOf(l, p.full, key, q.at)
            - if q.key == key && Allow(l, p.bounded, q.key, q.at).1.Admitted? then 1.0 else 0.0
  {
    hide EvictRefilled, Level, Linked, Allow;
    StepRefines(l, p, q);
    LevelNow(l, l.burst, q.at);
    var level := LevelOf(l, p.full, q.key, q.at);
    assert level <= l.burst by {
      LevelCapped(l, if q.key in p.full then p.full[q.key] else Bucket(l.burst, q.at), q.at);
    }
    LevelNow(l, level, q.at);
    LevelNow(l, level - 1.0, q.at);
  }

  lemma LevelOfBounds(l: Limits, p: Pair, key: string, now: Time, later: Time)
    requires l.Valid() && Linked(l, p, now) && now <= later
    ensures 0.0 <= LevelOf(l, p.full, key, now) <= l.burst
    ensures LevelOf(l, p.full, key, later) <= LevelOf(l, p.full, key, now) + Seconds(later - now) * l.rate
  {
    hide Level;
    RefillIsNotNegative(later - now, l.rate);
    if key in p.full {
      LevelRises(l, p.full[key], now, later);
      LevelCapped(l, p.full[key], now);
    }
  }

  /** What is left after requests i..j, with what they admitted, fits in what was there plus the refill. */
  lemma {:induction false} WindowBalance(l: Limits, keys: set<string>, start: Time, qs: seq<Request>, key: string,
                                         i: nat, j: nat)
    requires l.Valid() && Ordered(start, qs) && i < j <= |qs|
    ensures LevelOf(l, Run(l, Start(l, keys, start), qs[..j]).full, key, qs[j - 1].at)
            + Admissions(l, Start(l, keys, start), qs, key, i, j) as real
            <= l.burst + Seconds(qs[j - 1].at - qs[i].at) * l.rate
    decreases j - i
  {
    hide Level, LevelOf, Step, Allow, Linked, Ordered;
    var p0, q := Start(l, keys, start), qs[j - 1];
    var p := Run(l, p0, qs[..j - 1]);
    assert qs[..j][..j - 1] == qs[..j - 1];
    LinkedBefore(l, keys, start, qs, j - 1);
    StepCosts(l, p, q, key);
    if i == j - 1 {
      LevelOfBounds(l, p, key, q.at, q.at);
      assert Seconds(q.at - q.at) == 0.0;
    } else {
      WindowBalance(l, keys, start, qs, key, i, j - 1);
      LinkedAfter(l, keys, start, qs, j - 1);
      LevelOfBounds(l, p, key, qs[j - 2].at, q.at);
      assert Seconds(q.at - qs[i].at) == Seconds(qs[j - 2].at - qs[i].at) + Seconds(q.at - qs[j - 2].at);
      assert Seconds(q.at - qs[i].at) * l.rate
          == Seconds(qs[j - 2].at - qs[i].at) * l.rate + Seconds(q.at - qs[j - 2].at) * l.rate;
    }
  }

  lemma {:induction false} LinkedAfter(l: Limits, keys: set<string>, start: Time, qs: seq<Request>, j: nat)
    requires l.Valid() && Ordered(start, qs) && 0 < j <= |qs|
    ensures Linked(l, Run(l, Start(l, keys, start), qs[..j]), qs[j - 1].at)
    ensures j < |qs| ==> qs[j - 1].at <= qs[j].at
  {
    hide Linked, Run;
    RunLinked(l, keys, start, qs[..j]);
  }

  lemma {:induction false} LinkedBefore(l: Limits, keys: set<string>, start: Time, qs: seq<Request>, j: nat)
    requires l.Valid() && Ordered(start, qs) && j < |qs|
    ensures Linked(l, Run(l, Start(l, keys, start), qs[..j]), qs[j].at)
  {
    hide Linked, Run;
    RunLinked(l, keys, start, qs[..j]);
    LinkedLater(l, Run(l, Start(l, keys, start), qs[..j]), if j == 0 then start else qs[j - 1].at, qs[j].at);
  }

  /** In any window a client is admitted at most burst plus rate times its length. */
  lemma {:induction false} WindowBound(l: Limits, keys: set<string>, start: Time, qs: seq<Request>, key: string,
                                       i: nat, j: nat)
    requires l.Valid() && Ordered(start, qs) && i < j <= |qs|
    ensures Admissions(l, Start(l, keys, start), qs, key, i, j) as real
            <= l.burst + Seconds(qs[j - 1].at - qs[i].at) * l.rate
  {
    hide Level, Linked, Run, Ordered;
    WindowBalance(l, keys, start, qs, key, i, j);
    LinkedAfter(l, keys, start, qs, j);
    LevelOfBounds(l, Run(l, Start(l, keys, start), qs[..j]), key, qs[j - 1].at, qs[j - 1].at);
  }
}

/** Retry delays (internal/retry/retry.go) over reals, with the cap, the overflow guard and jitter. */
module Backoff {
  import opened Common
  import opened Workflow
  import opened Validation

  function Pow(x: real, n: nat): real {
    if n == 0 then 1.0 else x * Pow(x, n - 1)
  }

  function Times(a: real, b: real): real {
    a * b
  }

  function Larger(a: real, b: real): real {
    if a > b then a else b
  }

  /** Attempts are counted from one; anything lower is the first. */
  function Exponent(attempt: int): nat {
    if attempt < 1 then 0 else attempt - 1
  }

  /** `limit` is the largest finite float: growth past it, or a product past it, is cut short. */
  predicate Overflows(p: RetryPolicy, attempt: int, limit: real) {
    p.multiplier > 1.0 && Pow(p.multiplier, Exponent(attempt)) > limit / Larger(p.initialDelay as real, 1.0)
  }

  /** The delay before jitter. */
  function Capped(p: RetryPolicy, attempt: int, limit: real): real {
    var grown := if Overflows(p, attempt, limit) then p.maxDelay as real
      else if p.multiplier > 1.0 then Times(p.initialDelay as real, Pow(p.multiplier, Exponent(attempt)))
      else p.initialDelay as real;
    if p.maxDelay > 0 && grown > p.maxDelay as real then p.maxDelay as real else grown
  }

  function Jittered(p: RetryPolicy, base: real, draw: Option<real>): real {
    if p.jitter > 0.0 && draw.Some? then Times(base, 1.0 + Times(p.jitter, 2.0 * draw.value - 1.0)) else base
  }

  function Truncated(base: real): int {
    if base < 0.0 then 0 else base.Floor
  }

  /**
   Delay before the attempt after `attempt`. `draw` is the random source's value in [0, 1), or
   None without one; the conversion to a duration truncates.
   */
  method Delay(p: RetryPolicy, attempt: int, draw: Option<real>, limit: real) returns (delay: int)
    requires draw.Some? ==> 0.0 <= draw.value < 1.0
    ensures delay == Truncated(Jittered(p, Capped(p, attempt, limit), draw))
  {
    hide Pow, Times;
    var base := p.initialDelay as real;
    if p.multiplier > 1.0 {
      var growth := Pow(p.multiplier, Exponent(attempt));
      if growth > limit / Larger(base, 1.0) {
        base := p.maxDelay as real;
      } else {
        base := Times(base, growth);
      }
    }
    if p.maxDelay > 0 && base > p.maxDelay as real {
      base := p.maxDelay as real;
    }
    if p.jitter > 0.0 && draw.Some? {
      base := Times(base, 1.0 + Times(p.jitter, 2.0 * draw.value - 1.0));
    }
    if base < 0.0 {
      base := 0.0;
    }
    return base.Floor;
  }

  /** A policy that validation accepts, with a cap. */
  predicate CappedPolicy(p: RetryPolicy) {
    RetryProblems(p) == [] && p.maxDelay > 0
  }

  lemma {:induction false} PowGrows(x: real, m: nat, n: nat)
    requires x >= 1.0 && m <= n
    ensures 1.0 <= Pow(x, m) <= Pow(x, n)
    decreases n
  {
    if n == 0 {
    } else if m == n {
      PowGrows(x, m - 1, n - 1);
      Scales(x, 1.0, Pow(x, n - 1));
    } else {
      PowGrows(x, m, n - 1);
      Scales(Pow(x, n - 1), 1.0, x);
    }
  }

  lemma Scales(a: real, b: real, c: real)
    requires a >= 0.0 && b <= c
    ensures Times(a, b) <= Times(a, c)
  {
    assert a * (c - b) >= 0.0;
  }

  /** Before jitter the delay lies between zero and the cap. */
  lemma CappedBounds(p: RetryPolicy, attempt: int, limit: real)
    requires CappedPolicy(p)
    ensures 0.0 <= Capped(p, attempt, limit) <= p.maxDelay as real
  {
    hide Pow;
    if p.multiplier > 1.0 {
      PowGrows(p.multiplier, 0, Exponent(attempt));
      Scales(p.initialDelay as real, 0.0, Pow(p.multiplier, Exponent(attempt)));
    }
  }

  lemma JitterBounds(base: real, jitter: real, swing: real)
    requires base >= 0.0 && 0.0 <= jitter <= 1.0 && -1.0 <= swing <= 1.0
    ensures 0.0 <= Times(base, 1.0 - jitter) <= Times(base, 1.0 + Times(jitter, swing)) <= Times(base, 1.0 + jitter)
  {
    Scales(jitter, -1.0, swing);
    Scales(jitter, swing, 1.0);
    Scales(base, 0.0, 1.0 - jitter);
    Scales(base, 1.0 - jitter, 1.0 + Times(jitter, swing));
    Scales(base, 1.0 + Times(jitter, swing), 1.0 + jitter);
  }

  /**
   Backoff bound: jitter moves the delay by at most its fraction of the capped delay, so every
   delay lies between zero and MaxDelay x (1 + Jitter).
   */
  lemma DelayBound(p: RetryPolicy, attempt: int, draw: Option<real>, limit: real)
    requires CappedPolicy(p) && (draw.Some? ==> 0.0 <= draw.value < 1.0)
    ensures var (base, delay) := (Capped(p, attempt, limit), Truncated(Jittered(p, Capped(p, attempt, limit), draw)));
            && 0 <= delay
            && Times(base, 1.0 - p.jitter) - 1.0 < delay as real <= Times(base, 1.0 + p.jitter)
            && delay as real <= Times(p.maxDelay as real, 1.0 + p.jitter)
  {
    hide Capped, Times;
    var base := Capped(p, attempt, limit);
    CappedBounds(p, attempt, limit);
    var swing := if draw.Some? then 2.0 * draw.value - 1.0 else 0.0;
    JitterBounds(base, p.jitter, swing);
    NoSwing(base, p.jitter);
    CapTimes(base, p.maxDelay as real, 1.0 + p.jitter);
    assert Jittered(p, base, draw) == Times(base, 1.0 + Times(p.jitter, swing));
  }

  lemma NoSwing(base: real, jitter: real)
    ensures Times(base, 1.0 + Times(jitter, 0.0)) == base
    ensures jitter == 0.0 ==> forall swing :: Times(base, 1.0 + Times(jitter, swing)) == base
  {
  }

  lemma CapTimes(a: real, b: real, c: real)
    requires a <= b && c >= 0.0
    ensures Times(a, c) <= Times(b, c)
  {
    assert (b - a) * c >= 0.0;
  }

  /** Jitter spreads evenly: from 1 - Jitter of the delay at draw zero, in proportion, towards 1 + Jitter at one. */
  lemma JitterSpreads(p: RetryPolicy, base: real, draw: real)
    requires 0.0 <= p.jitter && 0.0 <= draw < 1.0
    ensures Jittered(p, base, Some(draw)) ==
            Times(base, 1.0 - p.jitter) + Times(draw, Times(base, 1.0 + p.jitter) - Times(base, 1.0 - p.jitter))
    ensures Jittered(p, base, None) == base
  {
    var b, j := base, p.jitter;
    assert j * (2.0 * draw - 1.0) == 2.0 * (j * draw) - j;
    assert b * (1.0 + (2.0 * (j * draw) - j)) == b + 2.0 * (b * (j * draw)) - b * j;
    assert b * (1.0 + j) - b * (1.0 - j) == 2.0 * (b * j);
    assert draw * (2.0 * (b * j)) == 2.0 * (b * (j * draw));
    assert b * (1.0 - j) == b - b * j;
  }

  /** Without jitter the delay never falls as attempts grow, through the overflow guard too. */
  lemma DelayNeverFalls(p: RetryPolicy, a: int, b: int, limit: real)
    requires CappedPolicy(p) && a <= b
    ensures Capped(p, a, limit) <= Capped(p, b, limit) <= p.maxDelay as real
    ensures Truncated(Capped(p, a, limit)) <= Truncated(Capped(p, b, limit)) <= p.maxDelay
  {
    hide Pow, Times;
    CappedBounds(p, a, limit);
    CappedBounds(p, b, limit);
    if p.multiplier > 1.0 {
      PowGrows(p.multiplier, Exponent(a), Exponent(b));
      Scales(p.initialDelay as real, Pow(p.multiplier, Exponent(a)), Pow(p.multiplier, Exponent(b)));
    }
  }

  /** The documented delay: InitialDelay x Multiplier^(attempt-1), capped at MaxDelay. */
  function Documented(p: RetryPolicy, attempt: int): real {
    var grown := Times(p.initialDelay as real, Pow(p.multiplier, Exponent(attempt)));
    if grown > p.maxDelay as real then p.maxDelay as real else grown
  }

  /** No initial delay, and the growth alone overflows: a policy that never waits suddenly waits MaxDelay. */
  predicate JumpsToCap(p: RetryPolicy, attempt: int, limit: real) {
    p.initialDelay == 0 && p.multiplier > 1.0 && Pow(p.multiplier, Exponent(attempt)) > limit
  }

  /**
   A multiplier below one is ignored, so the delay stays at InitialDelay where the documented one
   moves away from it. Validation admits such a policy only without retries.
   */
  predicate IgnoresShrinking(p: RetryPolicy, attempt: int) {
    var growth := Pow(p.multiplier, Exponent(attempt));
    p.multiplier < 1.0 && p.initialDelay != 0 && growth != 1.0 && !(growth > 1.0 && p.initialDelay == p.maxDelay)
  }

  /** The code computes the documented delay exactly outside those two cases. */
  lemma MeetsDocumentation(p: RetryPolicy, attempt: int, limit: real)
    requires CappedPolicy(p) && limit >= p.maxDelay as real
    ensures Capped(p, attempt, limit) == Documented(p, attempt) <==>
            !JumpsToCap(p, attempt, limit) && !IgnoresShrinking(p, attempt)
  {
    hide Pow;
    var base, growth := p.initialDelay as real, Pow(p.multiplier, Exponent(attempt));
    if p.multiplier == 1.0 {
      PowOfOne(Exponent(attempt));
    } else if p.multiplier < 1.0 {
      StaysPut(base, growth, p.maxDelay as real);
    } else if p.initialDelay >= 1 && growth > limit / base {
      Scales(base, limit / base, growth);
      assert Times(base, limit / base) == limit;
    }
  }

  /** When scaling and capping leave a delay below the cap where it is. */
  lemma StaysPut(base: real, growth: real, cap: real)
    requires 0.0 <= base <= cap
    ensures (if Times(base, growth) > cap then cap else Times(base, growth)) == base <==>
            base == 0.0 || growth == 1.0 || (growth > 1.0 && base == cap)
  {
    if base > 0.0 && growth > 1.0 {
      assert base * (growth - 1.0) > 0.0;
    } else if base > 0.0 && growth < 1.0 {
      assert base * (1.0 - growth) > 0.0;
    }
  }

  /** Whenever a retry follows, the multiplier is at least one, so the second case never arises there. */
  lemma RetriesNeverShrink(p: RetryPolicy, attempt: int, permanent: bool)
    requires CappedPolicy(p) && attempt >= 1 && ShouldRetry(p, attempt, permanent)
    ensures p.multiplier >= 1.0 && !IgnoresShrinking(p, attempt)
  {
  }

  function ShouldRetry(p: RetryPolicy, attempt: int, permanent: bool): bool {
    !permanent && attempt < p.maxAttempts
  }

  lemma {:induction false} PowOfOne(n: nat)
    ensures Pow(1.0, n) == 1.0
  {
    if n > 0 { PowOfOne(n - 1); }
  }

  /** The case in question, for any float limit: no initial delay, and the third failure. */
  lemma NoDelayJumpsToCap(limit: real)
    requires limit >= 1000.0
    ensures var p := RetryPolicy(4, 0, limit, 1000, 0.0);
            CappedPolicy(p) && Capped(p, 2, limit) == 0.0 && Capped(p, 3, limit) == 1000.0
  {
    var p := RetryPolicy(4, 0, limit, 1000, 0.0);
    assert Pow(limit, 1) == limit * Pow(limit, 0) == limit;
    assert Pow(limit, 2) == limit * limit;
    assert limit * limit > limit * 1.0 by { assert limit * (limit - 1.0) > 0.0; }
    assert Larger(0.0, 1.0) == 1.0 && limit / 1.0 == limit;
  }

  /** A policy of one attempt whose multiplier would halve the delay, and does not. */
  lemma ShrinkingIsIgnored(limit: real)
    ensures var p := RetryPolicy(1, 10, 0.5, 100, 0.0);
            CappedPolicy(p) && Capped(p, 2, limit) == 10.0 && Documented(p, 2) == 5.0
  {
    assert Pow(0.5, 1) == 0.5 * Pow(0.5, 0) == 0.5;
  }
}

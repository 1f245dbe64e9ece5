/** The retry loop with exponential backoff and jitter. Durations are nanoseconds. */
module Retry {
  import opened Types

  const SECOND := 1_000_000_000
  const JITTER := 500_000_000

  datatype Config = Config(maxAttempts: int, initialDelay: int, maxDelay: int, multiplier: real)

  const DEFAULT := Config(5, SECOND, 30 * SECOND, 2.0)

  // -------------------------------------------------------------------------
  // Backoff
  // -------------------------------------------------------------------------

  function Pow(x: real, n: nat): real {
    if n == 0 then 1.0 else x * Pow(x, n - 1)
  }

  /** Conversion of a float64 to a Duration drops the fraction. */
  function Truncate(d: real): int {
    if d < 0.0 then -((-d).Floor) else d.Floor
  }

  function Uncapped(cfg: Config, attempt: nat): real
    requires attempt >= 1
  {
    cfg.initialDelay as real * Pow(cfg.multiplier, attempt - 1)
  }

  function Backoff(cfg: Config, attempt: nat): int
    requires attempt >= 1
  {
    var d := Uncapped(cfg, attempt);
    if d > cfg.maxDelay as real then cfg.maxDelay else Truncate(d)
  }

  /** A fraction of a nanosecond is lost, and it is lost towards zero. */
  lemma TruncatesTowardsZero(d: real)
    ensures d >= 0.0 ==> d - 1.0 < Truncate(d) as real <= d
    ensures d < 0.0 ==> d <= Truncate(d) as real < d + 1.0
  {}

  /** The documented use: delays do not shrink. */
  predicate Growing(cfg: Config) {
    cfg.initialDelay >= 0 && cfg.maxDelay >= 0 && cfg.multiplier >= 1.0
  }

  lemma ScaleUp(x: real, y: real)
    requires x >= 1.0 && y >= 0.0
    ensures x * y >= y
  {
    assert (x - 1.0) * y >= 0.0;
    assert x * y == (x - 1.0) * y + y;
  }

  lemma Reorder(a: real, b: real, c: real)
    ensures a * (b * c) == b * (a * c)
  {}

  lemma UncappedStep(cfg: Config, attempt: nat)
    requires attempt >= 1
    ensures Uncapped(cfg, attempt + 1) == cfg.multiplier * Uncapped(cfg, attempt)
  {
    Reorder(cfg.initialDelay as real, cfg.multiplier, Pow(cfg.multiplier, attempt - 1));
  }

  lemma {:induction false} UncappedGrows(cfg: Config, attempt: nat)
    requires Growing(cfg) && attempt >= 1
    ensures 0.0 <= Uncapped(cfg, attempt) <= Uncapped(cfg, attempt + 1)
  {
    if attempt == 1 {
      assert Uncapped(cfg, 1) == cfg.initialDelay as real;
    } else {
      UncappedGrows(cfg, attempt - 1);
    }
    UncappedStep(cfg, attempt);
    ScaleUp(cfg.multiplier, Uncapped(cfg, attempt));
  }

  /** The base delay is the truncated power, capped, and never shrinks. */
  lemma BackoffShape(cfg: Config, attempt: nat)
    requires Growing(cfg) && attempt >= 1
    ensures var uncapped := Uncapped(cfg, attempt).Floor;
            Backoff(cfg, attempt) == if uncapped < cfg.maxDelay then uncapped else cfg.maxDelay
    ensures 0 <= Backoff(cfg, attempt) <= cfg.maxDelay
    ensures Backoff(cfg, attempt) <= Backoff(cfg, attempt + 1)
  {
    UncappedGrows(cfg, attempt);
  }

  /** Once capped, always capped. */
  lemma {:induction false} SaturationIsFinal(cfg: Config, s: nat, attempt: nat)
    requires Growing(cfg) && 1 <= s <= attempt && Backoff(cfg, s) == cfg.maxDelay
    ensures Backoff(cfg, attempt) == cfg.maxDelay
  {
    if s < attempt {
      SaturationIsFinal(cfg, s, attempt - 1);
      BackoffShape(cfg, attempt - 1);
      BackoffShape(cfg, attempt);
    }
  }

  /** Base delays slept after `n` failed attempts. */
  function TotalBackoff(cfg: Config, n: nat): int {
    if n == 0 then 0 else TotalBackoff(cfg, n - 1) + Backoff(cfg, n)
  }

  function IntPow(m: nat, n: nat): nat {
    if n == 0 then 1 else m * IntPow(m, n - 1)
  }

  lemma {:induction false} IntPowIsPow(m: nat, n: nat)
    ensures Pow(m as real, n) == IntPow(m, n) as real
  {
    if n > 0 { IntPowIsPow(m, n - 1); }
  }

  lemma GeometricStep(m: int, i: int, p: int, t: int)
    requires (m - 1) * t == i * (p - 1)
    ensures (m - 1) * (t + i * p) == i * (m * p - 1)
  {
    assert (m - 1) * (i * p) == i * (m * p) - i * p;
  }

  lemma WholeDelay(cfg: Config, m: nat, n: nat)
    requires cfg.initialDelay >= 0 && cfg.multiplier == m as real && n >= 1
    requires cfg.initialDelay * IntPow(m, n - 1) <= cfg.maxDelay
    ensures Backoff(cfg, n) == cfg.initialDelay * IntPow(m, n - 1)
  {
    IntPowIsPow(m, n - 1);
    var d := cfg.initialDelay * IntPow(m, n - 1);
    assert Uncapped(cfg, n) == d as real;
  }

  /** Before the cap, and with a whole multiplier, the delays form a geometric series. */
  lemma {:induction false} GeometricTotal(cfg: Config, m: nat, n: nat)
    requires cfg.initialDelay >= 0 && m >= 1 && cfg.multiplier == m as real
    requires forall k: nat :: k < n ==> cfg.initialDelay * IntPow(m, k) <= cfg.maxDelay
    ensures (m - 1) * TotalBackoff(cfg, n) == cfg.initialDelay * (IntPow(m, n) - 1)
  {
    if n > 0 {
      GeometricTotal(cfg, m, n - 1);
      WholeDelay(cfg, m, n);
      GeometricStep(m, cfg.initialDelay, IntPow(m, n - 1), TotalBackoff(cfg, n - 1));
    }
  }

  /** The delays before they are capped and truncated. */
  function UncappedTotal(cfg: Config, n: nat): real {
    if n == 0 then 0.0 else UncappedTotal(cfg, n - 1) + Uncapped(cfg, n)
  }

  lemma SeriesStep(m: real, i: real, p: real, t: real)
    requires (m - 1.0) * t == i * (p - 1.0)
    ensures (m - 1.0) * (t + i * p) == i * (m * p - 1.0)
  {
    Reorder(i, m, p);
    assert i * (m * p) == m * (i * p);
    assert (m - 1.0) * (t + i * p) == (m - 1.0) * t + (m - 1.0) * (i * p);
    assert (m - 1.0) * (i * p) == m * (i * p) - i * p;
  }

  ghost predicate IsSeries(m: real, i: real, p: real, t: real) {
    (m - 1.0) * t == i * (p - 1.0)
  }

  lemma SeriesNext(m: real, i: real, p: real, t: real)
    requires IsSeries(m, i, p, t)
    ensures IsSeries(m, i, m * p, t + i * p)
  {
    SeriesStep(m, i, p, t);
  }

  /** They form a geometric series, whatever the multiplier. */
  lemma {:induction false} GeometricSeries(cfg: Config, n: nat)
    ensures IsSeries(cfg.multiplier, cfg.initialDelay as real, Pow(cfg.multiplier, n), UncappedTotal(cfg, n))
  {
    if n > 0 {
      GeometricSeries(cfg, n - 1);
      SeriesNext(cfg.multiplier, cfg.initialDelay as real, Pow(cfg.multiplier, n - 1), UncappedTotal(cfg, n - 1));
    }
  }

  /** Truncation takes less than a nanosecond from each delay. */
  lemma {:induction false} TruncationLoss(cfg: Config, n: nat)
    requires Growing(cfg) && forall k :: 1 <= k <= n ==> Uncapped(cfg, k) <= cfg.maxDelay as real
    ensures TotalBackoff(cfg, n) as real <= UncappedTotal(cfg, n) <= (TotalBackoff(cfg, n) + n) as real
  {
    if n > 0 {
      TruncationLoss(cfg, n - 1);
      UncappedGrows(cfg, n);
    }
  }

  lemma NotLess(a: real, b: real, c: real)
    requires a >= 0.0 && b <= c
    ensures a * b <= a * c
  {
    assert a * (c - b) >= 0.0;
    assert a * (c - b) == a * c - a * b;
  }

  /** The series i * (p - 1) / (m - 1) lies between `low` and `high`. */
  ghost predicate Brackets(m: real, i: real, p: real, low: real, high: real) {
    (m - 1.0) * low <= i * (p - 1.0) <= (m - 1.0) * high
  }

  lemma Squeeze(m: real, i: real, p: real, low: real, t: real, high: real)
    requires IsSeries(m, i, p, t) && m >= 1.0 && low <= t <= high
    ensures Brackets(m, i, p, low, high)
  {
    NotLess(m - 1.0, low, t);
    NotLess(m - 1.0, t, high);
  }

  /** So with any multiplier the total stays within one nanosecond per delay of the series. */
  lemma GeometricBounds(cfg: Config, n: nat)
    requires Growing(cfg) && forall k :: 1 <= k <= n ==> Uncapped(cfg, k) <= cfg.maxDelay as real
    ensures Brackets(cfg.multiplier, cfg.initialDelay as real, Pow(cfg.multiplier, n),
                     TotalBackoff(cfg, n) as real, (TotalBackoff(cfg, n) + n) as real)
  {
    GeometricSeries(cfg, n);
    TruncationLoss(cfg, n);
    Squeeze(cfg.multiplier, cfg.initialDelay as real, Pow(cfg.multiplier, n),
            TotalBackoff(cfg, n) as real, UncappedTotal(cfg, n), (TotalBackoff(cfg, n) + n) as real);
  }

  /** After the cap it grows by MaxDelay per attempt. */
  lemma {:induction false} SaturatedTotal(cfg: Config, s: nat, n: nat)
    requires Growing(cfg) && 1 <= s <= n && Backoff(cfg, s) == cfg.maxDelay
    ensures TotalBackoff(cfg, n) == TotalBackoff(cfg, s) + (n - s) * cfg.maxDelay
  {
    if s < n {
      SaturatedTotal(cfg, s, n - 1);
      SaturationIsFinal(cfg, s, n);
      assert (n - s) * cfg.maxDelay == (n - 1 - s) * cfg.maxDelay + cfg.maxDelay;
    }
  }

  // -------------------------------------------------------------------------
  // The loop
  // -------------------------------------------------------------------------

  /** What one call of the retried function returned. */
  datatype Outcome<+T> = Ok(value: T) | Transient | Permanent

  datatype Failure = CallError(permanent: bool) | ContextError

  /** What happens while `Do` runs, attempt by attempt: the context may be found done
      before a call or during a sleep, calls have outcomes, and jitter is drawn. */
  datatype World<!T> = World(
    doneBefore: nat -> bool,
    outcome: nat -> Outcome<T>,
    doneDuring: nat -> bool,
    jitter: nat -> int)

  ghost predicate ValidWorld<T(!new)>(w: World<T>) {
    forall k: nat :: 0 <= w.jitter(k) < JITTER
  }

  /** Attempt `k` was made, failed, and the loop went on to the next one. */
  predicate GoesOn<T>(cfg: Config, w: World<T>, k: nat) {
    && k < cfg.maxAttempts
    && !w.doneBefore(k)
    && w.outcome(k).Transient?
    && !w.doneDuring(k)
  }

  function Delay<T>(cfg: Config, w: World<T>, k: nat): int
    requires k >= 1
  {
    Backoff(cfg, k) + w.jitter(k)
  }

  function TotalDelay<T>(cfg: Config, w: World<T>, n: nat): int {
    if n == 0 then 0 else TotalDelay(cfg, w, n - 1) + Delay(cfg, w, n)
  }

  /** A finished execution: `calls` calls were made, `sleeps` sleeps ran to their end, and
      `error` was returned. Stated without reference to the order of tests in the loop. */
  ghost predicate Finished<T>(cfg: Config, w: World<T>, calls: nat, sleeps: nat, error: Option<Failure>) {
    && (forall k :: 1 <= k <= sleeps ==> GoesOn(cfg, w, k))
    && sleeps <= calls <= sleeps + 1
    && (calls == sleeps + 1 ==> calls <= cfg.maxAttempts && !w.doneBefore(calls))
    && match error
       case None =>
         (calls == sleeps + 1 && w.outcome(calls).Ok?) || (calls == 0 && cfg.maxAttempts < 1)
       case Some(CallError(true)) =>
         calls == sleeps + 1 && w.outcome(calls).Permanent?
       case Some(CallError(false)) =>
         calls == sleeps + 1 && calls == cfg.maxAttempts && w.outcome(calls).Transient?
       case Some(ContextError) =>
         || (calls == sleeps && calls < cfg.maxAttempts && w.doneBefore(calls + 1))
         || (calls == sleeps + 1 && calls < cfg.maxAttempts && w.outcome(calls).Transient? && w.doneDuring(calls))
  }

  /** The specification leaves no freedom: outcomes and cancellations fix everything. */
  lemma FinishedIsUnique<T>(cfg: Config, w: World<T>,
                            calls: nat, sleeps: nat, error: Option<Failure>,
                            calls': nat, sleeps': nat, error': Option<Failure>)
    requires Finished(cfg, w, calls, sleeps, error) && Finished(cfg, w, calls', sleeps', error')
    ensures calls == calls' && sleeps == sleeps' && error == error'
  {
    if sleeps < sleeps' {
      ghost var _ := GoesOn(cfg, w, sleeps + 1);
    } else if sleeps' < sleeps {
      ghost var _ := GoesOn(cfg, w, sleeps' + 1);
    }
  }

  /** `Do`, with the number of calls made and the time slept as extra results. */
  method Do<T>(cfg: Config, w: World<T>) returns (error: Option<Failure>, calls: nat, sleeps: nat, slept: int)
    ensures Finished(cfg, w, calls, sleeps, error)
    ensures slept == TotalDelay(cfg, w, sleeps)
  {
    error, calls, sleeps, slept := None, 0, 0, 0;
    var attempt := 1;
    while attempt <= cfg.maxAttempts
      invariant calls == sleeps == attempt - 1
      invariant cfg.maxAttempts >= 1 ==> attempt <= cfg.maxAttempts
      invariant cfg.maxAttempts < 1 ==> attempt == 1
      invariant forall k :: 1 <= k <= sleeps ==> GoesOn(cfg, w, k)
      invariant slept == TotalDelay(cfg, w, sleeps)
      decreases cfg.maxAttempts - attempt
    {
      if w.doneBefore(attempt) {
        return Some(ContextError), calls, sleeps, slept;
      }
      calls := calls + 1;
      match w.outcome(attempt) {
        case Ok(_) => return None, calls, sleeps, slept;
        case Permanent => return Some(CallError(true)), calls, sleeps, slept;
        case Transient =>
      }
      if attempt == cfg.maxAttempts {
        return Some(CallError(false)), calls, sleeps, slept;
      }
      var delay := Backoff(cfg, attempt) + w.jitter(attempt);
      if w.doneDuring(attempt) {
        return Some(ContextError), calls, sleeps, slept;
      }
      slept, sleeps := slept + delay, sleeps + 1;
      attempt := attempt + 1;
    }
  }

  /** `DoWithResult` makes the same calls, returns the same error, and hands out the value
      of the call that succeeded, or the zero value. */
  method DoWithResult<T>(cfg: Config, w: World<T>, zero: T)
    returns (value: T, error: Option<Failure>, calls: nat, sleeps: nat)
    ensures Finished(cfg, w, calls, sleeps, error)
    ensures value == if error.None? && calls > 0 then w.outcome(calls).value else zero
  {
    error, calls, sleeps := None, 0, 0;
    var attempt := 1;
    while attempt <= cfg.maxAttempts
      invariant calls == sleeps == attempt - 1
      invariant cfg.maxAttempts >= 1 ==> attempt <= cfg.maxAttempts
      invariant cfg.maxAttempts < 1 ==> attempt == 1
      invariant forall k :: 1 <= k <= sleeps ==> GoesOn(cfg, w, k)
      decreases cfg.maxAttempts - attempt
    {
      if w.doneBefore(attempt) {
        return zero, Some(ContextError), calls, sleeps;
      }
      calls := calls + 1;
      match w.outcome(attempt) {
        case Ok(v) => return v, None, calls, sleeps;
        case Permanent => return zero, Some(CallError(true)), calls, sleeps;
        case Transient =>
      }
      if attempt == cfg.maxAttempts {
        return zero, Some(CallError(false)), calls, sleeps;
      }
      if w.doneDuring(attempt) {
        return zero, Some(ContextError), calls, sleeps;
      }
      sleeps := sleeps + 1;
      attempt := attempt + 1;
    }
    return zero, None, calls, sleeps;
  }

  /** Consequences a caller relies on: never more calls than configured, nothing but a
      transient failure leads to another call, none is made once the context is done, the
      error says which of these ended the loop, and one sleep is shorter than the cap plus
      the jitter. */
  lemma RetryGuarantees<T(!new)>(cfg: Config, w: World<T>, calls: nat, sleeps: nat, error: Option<Failure>)
    requires Finished(cfg, w, calls, sleeps, error) && ValidWorld(w) && Growing(cfg)
    ensures cfg.maxAttempts >= 1 ==> calls <= cfg.maxAttempts && sleeps < cfg.maxAttempts
    ensures forall k :: 1 <= k < calls ==> w.outcome(k).Transient?
    ensures error.None? && cfg.maxAttempts >= 1 ==> calls >= 1 && w.outcome(calls).Ok?
    ensures cfg.maxAttempts < 1 ==> calls == sleeps == 0 && error.None?
    ensures forall k :: 1 <= k <= calls ==> !w.doneBefore(k)
    ensures forall k :: 1 <= k < calls ==> !w.doneDuring(k)
    ensures error == Some(CallError(true)) ==> calls >= 1 && w.outcome(calls).Permanent?
    ensures error == Some(CallError(false)) ==> calls == cfg.maxAttempts >= 1 && w.outcome(calls).Transient?
    ensures error == Some(ContextError) ==>
              && calls < cfg.maxAttempts
              && (w.doneBefore(calls + 1) || (calls >= 1 && w.outcome(calls).Transient? && w.doneDuring(calls)))
    ensures forall k :: 1 <= k <= sleeps ==> 0 <= Delay(cfg, w, k) < cfg.maxDelay + JITTER
  {
    forall k | 1 <= k < calls
      ensures w.outcome(k).Transient? && !w.doneDuring(k)
    {
      assert GoesOn(cfg, w, k);
    }
    forall k | 1 <= k <= calls
      ensures !w.doneBefore(k)
    {
      if k <= sleeps { assert GoesOn(cfg, w, k); }
    }
    forall k | 1 <= k <= sleeps
      ensures 0 <= Delay(cfg, w, k) < cfg.maxDelay + JITTER
    {
      BackoffShape(cfg, k);
      assert 0 <= w.jitter(k) < JITTER;
    }
    if sleeps >= 1 { assert GoesOn(cfg, w, sleeps); }
  }

  lemma {:induction false} JitterTotal<T(!new)>(cfg: Config, w: World<T>, n: nat)
    requires ValidWorld(w)
    ensures TotalBackoff(cfg, n) <= TotalDelay(cfg, w, n) <= TotalBackoff(cfg, n) + n * JITTER
    ensures n > 0 ==> TotalDelay(cfg, w, n) < TotalBackoff(cfg, n) + n * JITTER
  {
    if n > 0 {
      JitterTotal(cfg, w, n - 1);
      assert 0 <= w.jitter(n) < JITTER;
    }
  }

  /** Exhausting the default configuration sleeps between 15 and 17 seconds. */
  lemma DefaultExhaustion<T(!new)>(w: World<T>, calls: nat, sleeps: nat)
    requires ValidWorld(w) && Finished(DEFAULT, w, calls, sleeps, Some(CallError(false)))
    ensures calls == 5 && sleeps == 4
    ensures 15 * SECOND <= TotalDelay(DEFAULT, w, sleeps) < 17 * SECOND
  {
    assert IntPow(2, 0) == 1 && IntPow(2, 1) == 2 && IntPow(2, 2) == 4;
    assert IntPow(2, 3) == 2 * IntPow(2, 2) && IntPow(2, 4) == 2 * IntPow(2, 3);
    GeometricTotal(DEFAULT, 2, 4);
    JitterTotal(DEFAULT, w, 4);
  }
}

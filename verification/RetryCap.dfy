/** MaxDelay as a bound on a single delay: exactly when it holds, and for which
    configurations. */
module RetryCap {
  import opened Types
  import opened Retry
  import T = SourceTask

  /** One finished execution kept every completed sleep within MaxDelay. */
  ghost predicate KeptCap(cfg: Config, w: World<()>, calls: nat, sleeps: nat, error: Option<Failure>) {
    ValidWorld(w) && Finished(cfg, w, calls, sleeps, error) ==>
      forall k :: 1 <= k <= sleeps ==> Delay(cfg, w, k) <= cfg.maxDelay
  }

  /** MaxDelay is what its comment says: an upper bound on any single delay, whatever the
      calls return and the jitter draws. */
  ghost predicate CapHolds(cfg: Config) {
    forall w: World<()>, calls: nat, sleeps: nat, error: Option<Failure> :: KeptCap(cfg, w, calls, sleeps, error)
  }

  /** The last retry's base delay leaves room for the largest jitter. */
  predicate JitterFits(cfg: Config) {
    cfg.maxAttempts < 2 || Backoff(cfg, cfg.maxAttempts - 1) + JITTER - 1 <= cfg.maxDelay
  }

  lemma {:induction false} BackoffMonotone(cfg: Config, j: nat, k: nat)
    requires Growing(cfg) && 1 <= j <= k
    ensures Backoff(cfg, j) <= Backoff(cfg, k)
  {
    if j < k {
      BackoffMonotone(cfg, j, k - 1);
      BackoffShape(cfg, k - 1);
    }
  }

  lemma FittingJitterKeepsCap(cfg: Config, w: World<()>, calls: nat, sleeps: nat, error: Option<Failure>)
    requires Growing(cfg) && JitterFits(cfg)
    ensures KeptCap(cfg, w, calls, sleeps, error)
  {
    if ValidWorld(w) && Finished(cfg, w, calls, sleeps, error) {
      forall k | 1 <= k <= sleeps
        ensures Delay(cfg, w, k) <= cfg.maxDelay
      {
        assert GoesOn(cfg, w, k);
        BackoffMonotone(cfg, k, cfg.maxAttempts - 1);
        assert 0 <= w.jitter(k) < JITTER;
      }
    }
  }

  /** Every call fails and every jitter is the largest. */
  const UNLUCKY: World<()> := World(k => false, k => Transient, k => false, k => JITTER - 1)

  lemma UnluckyExecution(cfg: Config)
    requires cfg.maxAttempts >= 2
    ensures ValidWorld(UNLUCKY)
    ensures Finished(cfg, UNLUCKY, cfg.maxAttempts, cfg.maxAttempts - 1, Some(CallError(false)))
    ensures Delay(cfg, UNLUCKY, cfg.maxAttempts - 1) == Backoff(cfg, cfg.maxAttempts - 1) + JITTER - 1
  {}

  /** The documented bound, exactly: jitter is added after the cap, so the bound holds of all
      executions if and only if the last retry's base delay stays clear of it. */
  lemma CapHoldsIff(cfg: Config)
    requires Growing(cfg)
    ensures CapHolds(cfg) <==> JitterFits(cfg)
  {
    if JitterFits(cfg) {
      forall w: World<()>, calls: nat, sleeps: nat, error: Option<Failure>
        ensures KeptCap(cfg, w, calls, sleeps, error)
      {
        FittingJitterKeepsCap(cfg, w, calls, sleeps, error);
      }
    } else {
      UnluckyExecution(cfg);
      assert !KeptCap(cfg, UNLUCKY, cfg.maxAttempts, cfg.maxAttempts - 1, Some(CallError(false)));
    }
  }

  /** A configuration that ever reaches its cap breaks the bound. */
  lemma SaturationBreaksCap(cfg: Config)
    requires Growing(cfg) && cfg.maxAttempts >= 2 && Backoff(cfg, cfg.maxAttempts - 1) == cfg.maxDelay
    ensures !CapHolds(cfg)
  {
    CapHoldsIff(cfg);
  }

  lemma DoublingBackoff(cfg: Config, n: nat)
    requires cfg.initialDelay >= 0 && cfg.multiplier == 2.0
    ensures Backoff(cfg, n + 1) == if cfg.initialDelay * IntPow(2, n) <= cfg.maxDelay
                                   then cfg.initialDelay * IntPow(2, n) else cfg.maxDelay
  {
    IntPowIsPow(2, n);
    assert Uncapped(cfg, n + 1) == (cfg.initialDelay * IntPow(2, n)) as real;
  }

  /** The two schedules in use, attempt by attempt, and the caps they would reach. */
  lemma Schedules()
    ensures DEFAULT.maxAttempts == 5 && T.SUBMIT.maxAttempts == 3
    ensures Backoff(DEFAULT, 1) == 1 * SECOND && Backoff(DEFAULT, 2) == 2 * SECOND
    ensures Backoff(DEFAULT, 3) == 4 * SECOND && Backoff(DEFAULT, 4) == 8 * SECOND
    ensures Backoff(DEFAULT, 6) == 30 * SECOND
    ensures Backoff(T.SUBMIT, 1) == 1 * SECOND && Backoff(T.SUBMIT, 2) == 2 * SECOND
    ensures Backoff(T.SUBMIT, 5) == 10 * SECOND
    ensures SECOND == 1_000_000_000 && 2 * JITTER == SECOND
  {
    assert IntPow(2, 0) == 1 && IntPow(2, 1) == 2 && IntPow(2, 2) == 4;
    assert IntPow(2, 3) == 2 * IntPow(2, 2) && IntPow(2, 4) == 2 * IntPow(2, 3) && IntPow(2, 5) == 2 * IntPow(2, 4);
    DoublingBackoff(DEFAULT, 0);
    DoublingBackoff(DEFAULT, 1);
    DoublingBackoff(DEFAULT, 2);
    DoublingBackoff(DEFAULT, 3);
    DoublingBackoff(DEFAULT, 5);
    DoublingBackoff(T.SUBMIT, 0);
    DoublingBackoff(T.SUBMIT, 1);
    DoublingBackoff(T.SUBMIT, 4);
  }

  /** The default configuration stays clear of its cap: at most 8 s and jitter against 30 s.
      With two attempts more it would not. */
  lemma DefaultKeepsCap()
    ensures CapHolds(DEFAULT)
    ensures !CapHolds(DEFAULT.(maxAttempts := 7))
  {
    assert IntPow(2, 2) == 4 && IntPow(2, 3) == 2 * IntPow(2, 2);
    assert IntPow(2, 4) == 2 * IntPow(2, 3) && IntPow(2, 5) == 2 * IntPow(2, 4);
    DoublingBackoff(DEFAULT, 3);
    CapHoldsIff(DEFAULT);
    var longer := DEFAULT.(maxAttempts := 7);
    DoublingBackoff(longer, 5);
    SaturationBreaksCap(longer);
  }

  /** So does the SCRA submit: at most 2 s and jitter against 10 s. */
  lemma SubmitKeepsCap()
    ensures CapHolds(T.SUBMIT)
  {
    assert IntPow(2, 1) == 2;
    DoublingBackoff(T.SUBMIT, 1);
    CapHoldsIff(T.SUBMIT);
  }
}

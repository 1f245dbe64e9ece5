/** `TriggerLookup`, `runLookup` and the three source processors as they are written:
    sequential code over the store, the breakers and the limiter. Each processor is shown
    to be one run of the task machine, so what holds of every interleaving of task steps
    holds of this code. */
module Orchestrator {
  import opened Types
  import opened Retry
  import C = LookupCase
  import P = LookupModes
  import T = SourceTask
  import R = TaskRuns
  import CB = CircuitBreaker
  import RL = RateLimiter
  import S = LookupStore

  // -------------------------------------------------------------------------
  // Overall status
  // -------------------------------------------------------------------------

  lemma OneMoreStatus(ss: seq<SourceStatus>, i: nat)
    requires i < |ss|
    ensures (forall s <- ss[..i + 1] :: s.Settled()) <==> (forall s <- ss[..i] :: s.Settled()) && ss[i].Settled()
    ensures (forall s <- ss[..i + 1] :: s.SFailed? || s.SNotApplicable?)
            <==> (forall s <- ss[..i] :: s.SFailed? || s.SNotApplicable?) && (ss[i].SFailed? || ss[i].SNotApplicable?)
  {
    assert ss[..i + 1] == ss[..i] + [ss[i]];
    assert forall s :: s in ss[..i + 1] <==> s in ss[..i] || s == ss[i];
  }

  method ComputeOverallStatus(ss: seq<SourceStatus>) returns (overall: RunStatus)
    ensures overall == C.OverallOf(ss)
    ensures overall.Complete? <==> forall s <- ss :: s.SSuccess? || s.SNotApplicable?
    ensures overall.Failed? <==>
            (exists s <- ss :: s.SFailed?) && forall s <- ss :: s.SFailed? || s.SNotApplicable?
    ensures overall.Partial? <==>
            (exists s <- ss :: s.SFailed? || s.SPending?) && exists s <- ss :: s.SSuccess? || s.SPending?
  {
    var applicable, succeeded, failed := 0, 0, 0;
    for i := 0 to |ss|
      invariant 0 <= succeeded <= applicable && 0 <= failed <= applicable
      invariant succeeded + failed <= applicable
      invariant succeeded == applicable <==> forall s <- ss[..i] :: s.Settled()
      invariant failed == applicable <==> forall s <- ss[..i] :: s.SFailed? || s.SNotApplicable?
    {
      OneMoreStatus(ss, i);
      if ss[i] == SNotApplicable {
        continue;
      }
      applicable := applicable + 1;
      match ss[i]
      case SSuccess => succeeded := succeeded + 1;
      case SFailed => failed := failed + 1;
      case _ =>
    }
    assert ss[..|ss|] == ss;
    if applicable == 0 || succeeded == applicable {
      return Complete;
    }
    if failed == applicable {
      return Failed;
    }
    return Partial;
  }

  // -------------------------------------------------------------------------
  // Triggering
  // -------------------------------------------------------------------------

  datatype TriggerResult = CaseNotFound | Existing | Launched

  /** The idempotency rules, as an effect on the run. */
  function TriggerEffect(run: Option<Run>, newId: nat): (Run, TriggerResult) {
    match run
    case None => (C.FreshRun(newId), Launched)
    case Some(r) =>
      if r.status.Complete? || r.status.Pending? then (r, Existing)
      else
        var todo := C.Retryable(r.rows);
        if todo == [] then (C.SetStatus(r, Complete), Existing)
        else (C.SetStatus(S.ResetRows(r, todo), Pending), Launched)
  }

  /** When a call launches a worker, and what it leaves behind when it does not: a new case,
      or a partial or failed run with something to retry; else nothing changes, except that
      a run with nothing left to retry is completed. */
  lemma TriggerRules(run: Option<Run>, newId: nat)
    ensures var (r, result) := TriggerEffect(run, newId);
            && !result.CaseNotFound?
            && (result.Launched? <==>
                  || run.None?
                  || ((run.value.status.Partial? || run.value.status.Failed?)
                      && exists s: Source :: !run.value.rows.At(s).status.Settled()))
            && (run.Some? && !result.Launched? ==>
                  r == if run.value.status.Pending? || run.value.status.Complete? then run.value
                       else Run(run.value.id, Complete, true, run.value.rows))
            && (run.None? ==> r.id == newId && r.status.Pending? && !r.completed
                              && forall s: Source :: r.rows.At(s) == Row(SPending, 0, None, None, None, None))
  {
    if run.Some? {
      P.RetryableRows(run.value.rows);
      var todo := C.Retryable(run.value.rows);
      if todo != [] { assert todo[0] in todo; }
    }
  }

  /** A retry resets exactly the rows that are not settled, keeps their attempts and the id
      of their search, and leaves the run's identity alone. */
  lemma RetryEffect(r: Run, newId: nat, s: Source)
    requires TriggerEffect(Some(r), newId).1.Launched?
    ensures var r' := TriggerEffect(Some(r), newId).0;
            && r'.id == r.id && r'.status.Pending? && !r'.completed
            && (r.rows.At(s).status.Settled() ==> r'.rows.At(s) == r.rows.At(s))
            && (!r.rows.At(s).status.Settled() ==>
                  r'.rows.At(s) == Row(SPending, r.rows.At(s).attempts, None, None, None, r.rows.At(s).searchId))
    ensures exists u: Source :: !r.rows.At(u).status.Settled()
  {
    var todo := C.Retryable(r.rows);
    S.ResetRowsAt(r, todo, s);
    P.RetryableRows(r.rows);
    assert todo[0] in todo;
  }

  /** What happens around one `processSource` call: outcomes of the client calls and the
      clock readings at its two breaker calls. The errgroup's context is never cancelled,
      because its functions always return nil. */
  datatype Environment = Environment(
    retried: World<Option<string>>,   // fetch, search or submit
    polls: nat -> T.PollOutcome,
    askAt: int,
    tellAt: int)

  ghost predicate Plausible(env: Environment, s: Source) {
    && (forall k: nat :: !env.retried.doneBefore(k) && !env.retried.doneDuring(k))
    && (forall k: nat :: env.retried.outcome(k).Ok? && !s.Court? ==> env.retried.outcome(k).value.Some?)
  }

  /** The calls of a retry loop, with the sleeps between them. */
  ghost function CallActions(w: World<Option<string>>, n: nat): seq<T.Action>
    requires n >= 1
  {
    if n == 1 then [T.Call(w.outcome(1))]
    else CallActions(w, n - 1) + [T.Wake] + [T.Call(w.outcome(n))]
  }

  ghost function CallsMade(run: seq<T.Action>): nat {
    if run == [] then 0 else CallsMade(run[..|run| - 1]) + T.Indicator(run[|run| - 1].Call?)
  }

  ghost function PollsMade(run: seq<T.Action>): nat {
    if run == [] then 0 else PollsMade(run[..|run| - 1]) + T.Indicator(run[|run| - 1].Poll?)
  }

  /** The client calls of a run, in their order, got exactly the answers of `env`. */
  ghost predicate Follows(env: Environment, run: seq<T.Action>)
    decreases |run|
  {
    run == []
    || (var before := run[..|run| - 1];
        && Follows(env, before)
        && match run[|run| - 1]
           case Call(out) => out == env.retried.outcome(CallsMade(before) + 1)
           case Poll(result) => result == env.polls(PollsMade(before))
           case _ => true)
  }

  lemma FollowsOne(env: Environment, acts: seq<T.Action>, a: T.Action)
    requires Follows(env, acts)
    requires a.Call? ==> a.out == env.retried.outcome(CallsMade(acts) + 1)
    requires a.Poll? ==> a.result == env.polls(PollsMade(acts))
    ensures Follows(env, acts + [a])
    ensures CallsMade(acts + [a]) == CallsMade(acts) + T.Indicator(a.Call?)
    ensures PollsMade(acts + [a]) == PollsMade(acts) + T.Indicator(a.Poll?)
  {
    assert (acts + [a])[..|acts|] == acts;
  }

  lemma FollowsTwo(env: Environment, a: T.Action, b: T.Action)
    requires !a.Call? && !a.Poll? && !b.Call? && !b.Poll?
    ensures Follows(env, [a]) && Follows(env, [a, b]) && CallsMade([a]) == PollsMade([a]) == CallsMade([a, b]) == 0
  {
    FollowsOne(env, [], a);
    FollowsOne(env, [a], b);
    assert [] + [a] == [a] && [a] + [b] == [a, b];
  }

  lemma FollowsAgain(env: Environment, run: seq<T.Action>, n: nat)
    requires n >= 1 && Follows(env, run) && CallsMade(run) == n - 1
    ensures var run' := run + [T.Wake] + [T.Call(env.retried.outcome(n))];
            Follows(env, run') && CallsMade(run') == n && PollsMade(run') == PollsMade(run)
  {
    FollowsOne(env, run, T.Wake);
    FollowsOne(env, run + [T.Wake], T.Call(env.retried.outcome(n)));
  }

  lemma OneMoreCall(acts: seq<T.Action>, w: World<Option<string>>, n: nat)
    requires n >= 2
    ensures acts + CallActions(w, n) == acts + CallActions(w, n - 1) + [T.Wake] + [T.Call(w.outcome(n))]
  {}

  lemma {:induction false} FollowsCalls(env: Environment, acts: seq<T.Action>, n: nat) returns (run: seq<T.Action>)
    requires n >= 1 && Follows(env, acts) && CallsMade(acts) == 0
    ensures run == acts + CallActions(env.retried, n)
    ensures Follows(env, run) && CallsMade(run) == n && PollsMade(run) == PollsMade(acts)
  {
    if n == 1 {
      FollowsOne(env, acts, T.Call(env.retried.outcome(1)));
      run := acts + [T.Call(env.retried.outcome(1))];
    } else {
      var before := FollowsCalls(env, acts, n - 1);
      FollowsAgain(env, before, n);
      OneMoreCall(acts, env.retried, n);
      run := before + [T.Wake] + [T.Call(env.retried.outcome(n))];
    }
  }

  /** `n` calls of which all but the last failed transiently take a task through its
      retry loop. */
  lemma {:induction false} RetryLoopIsRun(t: T.Task, w: World<Option<string>>, n: nat)
    requires t.pc == T.Calling(1) && t.made == 0 && 1 <= n <= T.MaxCalls(t.source)
    requires forall k :: 1 <= k < n ==> w.outcome(k).Transient?
    requires forall k: nat :: w.outcome(k).Ok? && !t.source.Court? ==> w.outcome(k).value.Some?
    ensures R.Path(t, CallActions(w, n), T.AfterCall(t.(made := n), n, w.outcome(n)))
  {
    if n == 1 {
      R.RunOne(t, T.Call(w.outcome(1)));
    } else {
      RetryLoopIsRun(t, w, n - 1);
      var t1 := T.AfterCall(t.(made := n - 1), n - 1, w.outcome(n - 1));
      assert t1.pc == T.Sleeping(n - 1);
      var acts, t2 := R.Then(t, CallActions(w, n - 1), t1, T.Wake);
      acts, t2 := R.Then(t, acts, t2, T.Call(w.outcome(n)));
    }
  }

  /** The task a processor runs for a loaded source row. */
  function TaskFor(src: S.LookupSource, hasCourt: bool): T.Task {
    T.Task(src.source, hasCourt, src.row.attempts, 0, T.Begin)
  }

  /** `run` takes the task to its end and `row` is what it writes there. */
  ghost predicate Completes(t: T.Task, run: seq<T.Action>, row: Row) {
    && |run| > 0 && R.Legal(t, run) && R.ExecAll(t, run).pc.Finished?
    && R.Legal(t, run[..|run| - 1]) && R.ExecAll(t, run[..|run| - 1]).pc == T.Writing(row)
  }

  /** And does so on the answers of `env`. */
  ghost predicate Serves(t: T.Task, env: Environment, run: seq<T.Action>, row: Row) {
    Completes(t, run, row) && Follows(env, run)
  }

  lemma WriteCompletes(t0: T.Task, env: Environment, acts: seq<T.Action>, t: T.Task)
    requires R.Path(t0, acts, t) && t.pc.Writing? && Follows(env, acts)
    ensures Serves(t0, env, acts + [T.Write], t.pc.row)
  {
    FollowsOne(env, acts, T.Write);
    var acts', t' := R.Then(t0, acts, t, T.Write);
    assert acts'[..|acts'| - 1] == acts;
  }

  /** What an admitted task leaves in its breaker, told from the row it writes: a poll
      timeout is never reported. */
  ghost function AfterReport(b: CB.Breaker, env: Environment, row: Row): CB.Breaker {
    if row.error == Some(PollTimedOut) then b
    else CB.After(b, CB.TimedCall(if row.status.SSuccess? then CB.Success else CB.Failure, env.tellAt))
  }

  ghost function AfterTask(b: CB.Breaker, env: Environment, ok: bool, row: Row): CB.Breaker {
    var asked := CB.After(b, CB.TimedCall(CB.Allow, env.askAt));
    if ok then AfterReport(asked, env, row) else asked
  }

  lemma RefusedRun(t0: T.Task, env: Environment)
    requires t0.pc.Begin? && !T.Skipped(t0)
    ensures Serves(t0, env, [T.Ask(false), T.Write], T.FailedRow(t0.base, BreakerOpen, None))
  {
    R.RunOne(t0, T.Ask(false));
    FollowsTwo(env, T.Ask(false), T.Write);
    WriteCompletes(t0, env, [T.Ask(false)], T.Exec(t0, T.Ask(false)));
    assert [T.Ask(false)] + [T.Write] == [T.Ask(false), T.Write];
  }

  lemma ReportAndWrite(t0: T.Task, env: Environment, acts: seq<T.Action>, t: T.Task) returns (run: seq<T.Action>)
    requires R.Path(t0, acts, t) && t.pc.Reporting? && |acts| > 0 && Follows(env, acts)
    ensures Serves(t0, env, run, t.pc.row) && |run| > 0 && run[0] == acts[0]
  {
    var acts', t' := R.Then(t0, acts, t, T.Tell);
    FollowsOne(env, acts, T.Tell);
    WriteCompletes(t0, env, acts', t');
    run := acts' + [T.Write];
  }

  /** And a run whose polling times out, which is not reported. */
  lemma ExpireAndWrite(t0: T.Task, env: Environment, acts: seq<T.Action>, t: T.Task) returns (run: seq<T.Action>)
    requires R.Path(t0, acts, t) && T.Enabled(t, T.Expire) && |acts| > 0 && Follows(env, acts)
    ensures Serves(t0, env, run, T.FailedRow(t.base + t.made, PollTimedOut, Some(t.pc.searchId)))
    ensures |run| > 0 && run[0] == acts[0]
  {
    var acts', t' := R.Then(t0, acts, t, T.Expire);
    FollowsOne(env, acts, T.Expire);
    WriteCompletes(t0, env, acts', t');
    run := acts' + [T.Write];
  }

  lemma UncancelledFinish<V>(cfg: Config, w: World<V>, calls: nat, sleeps: nat, error: Option<Failure>)
    requires Finished(cfg, w, calls, sleeps, error) && cfg.maxAttempts >= 1
    requires forall k: nat :: !w.doneBefore(k) && !w.doneDuring(k)
    ensures 1 <= calls <= cfg.maxAttempts
    ensures forall k :: 1 <= k < calls ==> w.outcome(k).Transient?
    ensures error.None? <==> w.outcome(calls).Ok?
    ensures error.Some? ==> error.value.CallError? && error.value.permanent == w.outcome(calls).Permanent?
    ensures error == Some(CallError(false)) ==> calls == cfg.maxAttempts
  {
    forall k | 1 <= k < calls
      ensures w.outcome(k).Transient?
    {
      assert GoesOn(cfg, w, k);
    }
    if sleeps >= 1 { assert GoesOn(cfg, w, sleeps); }
  }

  lemma RetryPath(t0: T.Task, acts: seq<T.Action>, t: T.Task, env: Environment, calls: nat)
    requires R.Path(t0, acts, t) && t.pc == T.Calling(1) && t.made == 0 && Plausible(env, t.source)
    requires 1 <= calls <= T.MaxCalls(t.source)
    requires forall k :: 1 <= k < calls ==> env.retried.outcome(k).Transient?
    ensures R.Path(t0, acts + CallActions(env.retried, calls),
                   T.AfterCall(t.(made := calls), calls, env.retried.outcome(calls)))
  {
    RetryLoopIsRun(t, env.retried, calls);
    R.RunAppend(t0, acts, CallActions(env.retried, calls));
  }

  /** A whole `Do` as a stretch of a task's run. */
  lemma AfterRetry(t0: T.Task, acts: seq<T.Action>, t: T.Task, env: Environment,
                   calls: nat, sleeps: nat, error: Option<Failure>)
    returns (t': T.Task)
    requires R.Path(t0, acts, t) && t.pc == T.Calling(1) && t.made == 0 && Plausible(env, t.source)
    requires Finished(T.RetryConfig(t.source), env.retried, calls, sleeps, error)
    ensures 1 <= calls && R.Path(t0, acts + CallActions(env.retried, calls), t')
    ensures t' == T.AfterCall(t.(made := calls), calls, env.retried.outcome(calls))
    ensures error.None? <==> env.retried.outcome(calls).Ok?
    ensures error.Some? ==>
              && error.value.CallError?
              && t'.pc == T.Reporting(false, T.FailedRow(t.base + calls, CallFailed(error.value.permanent), None))
  {
    UncancelledFinish(T.RetryConfig(t.source), env.retried, calls, sleeps, error);
    RetryPath(t0, acts, t, env, calls);
    t' := T.AfterCall(t.(made := calls), calls, env.retried.outcome(calls));
  }

  /** The run of a task whose whole work is one retry loop, from an admission on. */
  lemma RetriedRun(t0: T.Task, acts: seq<T.Action>, t: T.Task, env: Environment,
                   calls: nat, sleeps: nat, error: Option<Failure>)
    returns (run: seq<T.Action>)
    requires R.Path(t0, acts, t) && t.pc == T.Calling(1) && t.made == 0 && |acts| > 0
    requires !t.source.Scra? && Plausible(env, t.source) && Follows(env, acts) && CallsMade(acts) == 0
    requires Finished(T.RetryConfig(t.source), env.retried, calls, sleeps, error)
    ensures error.Some? ==> error.value.CallError?
    ensures error.None? ==> env.retried.outcome(calls).Ok?
    ensures run != [] && run[0] == acts[0]
    ensures Serves(t0, env, run,
              if error.Some? then T.FailedRow(t.base + calls, CallFailed(error.value.permanent), None)
              else T.SuccessRow(t.base + calls, env.retried.outcome(calls).value, None))
  {
    var t' := AfterRetry(t0, acts, t, env, calls, sleeps, error);
    var acts' := FollowsCalls(env, acts, calls);
    run := ReportAndWrite(t0, env, acts', t');
  }

  /** The way of an admitted task to its first call. */
  lemma Admission(t0: T.Task, env: Environment) returns (acts: seq<T.Action>)
    requires t0.pc.Begin? && !T.Skipped(t0) && t0.made == 0
    ensures R.Path(t0, acts, t0.(pc := T.Calling(1))) && |acts| > 0 && acts[0] == T.Ask(true)
    ensures Follows(env, acts) && CallsMade(acts) == 0
  {
    R.RunOne(t0, T.Ask(true));
    FollowsTwo(env, T.Ask(true), T.Grant);
    acts := [T.Ask(true)];
    if t0.source.Court? {
      var t;
      acts, t := R.Then(t0, acts, t0.(pc := T.AwaitToken), T.Grant);
      assert acts == [T.Ask(true), T.Grant];
    }
  }

  /** `Do` around a fetch or a search, and the row that is to be written, together with the
      task run it amounts to. The callback counts its calls and keeps the record. */
  method RetryCalls(env: Environment, base: nat, ghost t0: T.Task)
    returns (result: Row, ghost run: seq<T.Action>)
    requires t0.pc.Begin? && !T.Skipped(t0) && t0.made == 0 && t0.base == base
    requires !t0.source.Scra? && Plausible(env, t0.source)
    ensures run != [] && run[0] == T.Ask(true)
    ensures Serves(t0, env, run, result)
    ensures result.status.SFailed? || result.status.SSuccess?
    ensures result.error != Some(PollTimedOut)
    ensures base < result.attempts <= base + 5
    ensures result.status.SSuccess? ==> env.retried.outcome(result.attempts - base) == Ok(result.data)
  {
    ghost var acts := Admission(t0, env);
    var error, attempts, sleeps, slept := Do(DEFAULT, env.retried);
    run := RetriedRun(t0, acts, t0.(pc := T.Calling(1)), env, attempts, sleeps, error);
    UncancelledFinish(DEFAULT, env.retried, attempts, sleeps, error);
    if error.Some? {
      return T.FailedRow(base + attempts, CallFailed(error.value.permanent), None), run;
    }
    return T.SuccessRow(base + attempts, env.retried.outcome(attempts).value, None), run;
  }

  /** The breaker is told how a task ended. */
  method Report(cb: CB.CircuitBreaker, env: Environment, row: Row)
    requires row.error != Some(PollTimedOut)
    modifies cb
    ensures cb.Value() == AfterReport(old(cb.Value()), env, row)
    ensures row.status.SSuccess? ==> cb.state.Closed? && cb.failures == 0
    ensures !row.status.SSuccess? ==> cb.failures == old(cb.failures) + 1 && cb.lastFailure == env.tellAt
  {
    if row.status.SSuccess? {
      cb.RecordSuccess();
    } else {
      cb.RecordFailure(env.tellAt);
    }
  }

  /** `run` has submitted the search in `attempts` calls, and polling is about to begin. */
  ghost predicate Submitted(t0: T.Task, env: Environment, run: seq<T.Action>, attempts: nat, searchId: string) {
    && R.Path(t0, run, t0.(made := attempts, pc := T.Polling(T.POLL_SECONDS, false, searchId)))
    && |run| > 0 && run[0] == T.Ask(true) && Follows(env, run) && PollsMade(run) == 0
  }

  /** Or the submit phase has failed, and `run` has written the row that says so. */
  ghost predicate SubmitEnded(t0: T.Task, env: Environment, failure: Option<bool>, attempts: nat, searchId: string,
                              run: seq<T.Action>) {
    match failure
    case None => Submitted(t0, env, run, attempts, searchId)
    case Some(permanent) =>
      && |run| > 0 && run[0] == T.Ask(true)
      && Serves(t0, env, run, T.FailedRow(t0.base + attempts, CallFailed(permanent), None))
  }

  /** The submit phase of SCRA: a retry loop that ends in polling or in a failed row. */
  method SubmitSearch(env: Environment, ghost t0: T.Task)
    returns (failure: Option<bool>, attempts: nat, searchId: string, ghost run: seq<T.Action>)
    requires t0.pc.Begin? && t0.source.Scra? && t0.made == 0 && Plausible(env, Scra)
    ensures 1 <= attempts <= 3
    ensures forall k :: 1 <= k < attempts ==> env.retried.outcome(k).Transient?
    ensures failure.None? ==> env.retried.outcome(attempts) == Ok(Some(searchId))
    ensures failure.Some? ==> env.retried.outcome(attempts) == if failure.value then Permanent else Transient
    ensures SubmitEnded(t0, env, failure, attempts, searchId, run)
  {
    R.RunOne(t0, T.Ask(true));
    FollowsTwo(env, T.Ask(true), T.Wake);
    var error, calls, sleeps, slept := Do(T.SUBMIT, env.retried);
    UncancelledFinish(T.SUBMIT, env.retried, calls, sleeps, error);
    ghost var t := AfterRetry(t0, [T.Ask(true)], t0.(pc := T.Calling(1)), env, calls, sleeps, error);
    run := FollowsCalls(env, [T.Ask(true)], calls);
    if error.Some? {
      run := ReportAndWrite(t0, env, run, t);
      return Some(error.value.permanent), calls, "", run;
    }
    return None, calls, env.retried.outcome(calls).value.value, run;
  }

  /** The first `n` polls left the search undecided. */
  ghost predicate GoOn(env: Environment, n: nat) {
    forall k: nat :: k < n ==> env.polls(k).StillPending? || env.polls(k).PollTransient?
  }

  /** The poll loop: one poll per tick until the search ends, or until the 30 seconds are
      over; with a tick and the deadline both ready, select takes either. */
  method PollLoop(env: Environment, attempts: nat, searchId: string,
                  ghost t0: T.Task, ghost submitted: seq<T.Action>, ghost t1: T.Task)
    returns (ended: Option<T.PollOutcome>, totalAttempts: nat, ghost run: seq<T.Action>, ghost t: T.Task)
    requires R.Path(t0, submitted, t1) && |submitted| > 0 && submitted[0] == T.Ask(true)
    requires t1.pc == T.Polling(T.POLL_SECONDS, false, searchId) && t1.base + t1.made == attempts
    requires Follows(env, submitted) && PollsMade(submitted) == 0
    ensures attempts <= totalAttempts <= attempts + 30
    ensures var polls := totalAttempts - attempts;
            if ended.Some? then polls >= 1 && ended.value == env.polls(polls - 1) && GoOn(env, polls - 1)
            else GoOn(env, polls)
    ensures R.Path(t0, run, t) && |run| > 0 && run[0] == T.Ask(true) && Follows(env, run)
    ensures t.base == t1.base && t.base + t.made == totalAttempts
    ensures ended.None? ==> t.pc.Polling? && t.pc.left == 0 && t.pc.searchId == searchId
    ensures ended.Some? ==>
              && !ended.value.StillPending? && !ended.value.PollTransient?
              && t.pc.Reporting? && t.pc.row == PolledRow(ended.value, totalAttempts, searchId)
  {
    t, run := t1, submitted;
    totalAttempts := attempts;
    var polls := 0;
    var left: nat, tick := T.POLL_SECONDS, false;
    while true
      invariant R.Path(t0, run, t) && |run| > 0 && run[0] == T.Ask(true)
      invariant t.base == t1.base && t.base + t.made == totalAttempts
      invariant t.pc == T.Polling(left, tick, searchId)
      invariant Follows(env, run) && PollsMade(run) == polls
      invariant totalAttempts == attempts + polls && GoOn(env, polls)
      invariant polls + T.Indicator(tick) <= T.POLL_SECONDS - left
      decreases left, tick
    {
      var timePasses: bool, preferDeadline: bool := *, *;
      if left > 0 && (timePasses || !tick) {
        left, tick := left - 1, true;
        FollowsOne(env, run, T.Tick);
        run, t := R.Then(t0, run, t, T.Tick);
        continue;
      }
      if left == 0 && (preferDeadline || !tick) {
        return None, totalAttempts, run, t;
      }
      totalAttempts := totalAttempts + 1;
      var result := env.polls(polls);
      FollowsOne(env, run, T.Poll(result));
      polls := polls + 1;
      tick := false;
      run, t := R.Then(t0, run, t, T.Poll(result));
      if !result.StillPending? && !result.PollTransient? {
        return Some(result), totalAttempts, run, t;
      }
    }
  }

  /** The row written when a poll ends the search. */
  function PolledRow(result: T.PollOutcome, attempts: nat, searchId: string): Row {
    match result
    case SearchComplete(data) => T.SuccessRow(attempts, Some(data), Some(searchId))
    case SearchError => T.FailedRow(attempts, SearchFailed, Some(searchId))
    case _ => T.FailedRow(attempts, CallFailed(true), Some(searchId))
  }

  /** `after` is what some run of the task for row `before` writes on the answers of `env`. */
  ghost predicate WrittenFor(before: Row, after: Row, s: Source, hasCourt: bool, env: Environment) {
    exists run :: Serves(T.Task(s, hasCourt, before.attempts, 0, T.Begin), env, run, after)
  }

  /** How a worker leaves one row: settled rows alone, the others resolved by their task. */
  ghost predicate Resolved(before: Row, after: Row, s: Source, hasCourt: bool, env: Environment) {
    if before.status.Settled() then after == before
    else
      && WrittenFor(before, after, s, hasCourt, env)
      && after.status.Terminal() && T.RowFits(after, s, hasCourt)
      && before.attempts <= after.attempts <= before.attempts + T.CallLimit(s)
  }

  /** What a completed task says about the row it wrote. */
  lemma CompletedRow(before: Row, after: Row, s: Source, hasCourt: bool, env: Environment, run: seq<T.Action>)
    requires Serves(T.Task(s, hasCourt, before.attempts, 0, T.Begin), env, run, after) && !before.status.Settled()
    ensures Resolved(before, after, s, hasCourt, env)
  {
    var t := T.Task(s, hasCourt, before.attempts, 0, T.Begin);
    R.FinishedTaskRow(t, run);
    R.FinishedTask(t, run);
  }

  function Position(s: Source): nat {
    match s
    case Court => 0
    case Property => 1
    case Scra => 2
  }

  /** The sources marked in `left` are still to be handled, the others have been. */
  ghost predicate ResolvedBut(before: Rows, after: Rows, left: PerSource<bool>, hasCourt: bool,
                              envs: PerSource<Environment>) {
    forall s: Source ::
      if left.At(s) then after.At(s) == before.At(s)
      else Resolved(before.At(s), after.At(s), s, hasCourt, envs.At(s))
  }

  function HowMany(left: PerSource<bool>): nat {
    T.Indicator(left.court) + T.Indicator(left.property) + T.Indicator(left.scra)
  }

  lemma OneFewer(left: PerSource<bool>) returns (s: Source)
    requires left != PerSource(false, false, false)
    ensures left.At(s)
    ensures forall u: Source :: left.At(u) ==> HowMany(left.With(u, false)) < HowMany(left)
  {
    s := if left.court then Court else if left.property then Property else Scra;
  }

  lemma RowAtPosition(r: Run, ids: PerSource<nat>, s: Source)
    ensures S.RowsOf(r, ids)[Position(s)] == S.LookupSource(ids.At(s), s, r.rows.At(s))
  {}

  lemma OneMoreResolved(rows: Rows, before: Rows, after: Rows, left: PerSource<bool>, s: Source, hasCourt: bool,
                        envs: PerSource<Environment>)
    requires left.At(s) && ResolvedBut(rows, before, left, hasCourt, envs)
    requires Resolved(before.At(s), after.At(s), s, hasCourt, envs.At(s))
    requires forall u: Source :: u != s ==> after.At(u) == before.At(u)
    ensures ResolvedBut(rows, after, left.With(s, false), hasCourt, envs)
  {
    forall u: Source
      ensures if left.With(s, false).At(u) then after.At(u) == rows.At(u)
              else Resolved(rows.At(u), after.At(u), u, hasCourt, envs.At(u))
    {
      assert if left.At(u) then before.At(u) == rows.At(u)
             else Resolved(rows.At(u), before.At(u), u, hasCourt, envs.At(u));
    }
  }

  lemma SettledIsResolved(rows: Rows, before: Rows, left: PerSource<bool>, s: Source, hasCourt: bool,
                          envs: PerSource<Environment>)
    requires left.At(s) && ResolvedBut(rows, before, left, hasCourt, envs) && rows.At(s).status.Settled()
    ensures ResolvedBut(rows, before, left.With(s, false), hasCourt, envs)
  {
    assert before.At(s) == rows.At(s);
    OneMoreResolved(rows, before, before, left, s, hasCourt, envs);
  }

  lemma WrittenIsResolved(rows: Rows, r: Run, left: PerSource<bool>, s: Source, hasCourt: bool,
                          envs: PerSource<Environment>, run: seq<T.Action>, row: Row)
    requires left.At(s) && ResolvedBut(rows, r.rows, left, hasCourt, envs) && !rows.At(s).status.Settled()
    requires Serves(T.Task(s, hasCourt, rows.At(s).attempts, 0, T.Begin), envs.At(s), run, row)
    ensures ResolvedBut(rows, C.SetRow(r, s, row).rows, left.With(s, false), hasCourt, envs)
  {
    assert r.rows.At(s) == rows.At(s);
    CompletedRow(rows.At(s), row, s, hasCourt, envs.At(s), run);
    OneMoreResolved(rows, r.rows, C.SetRow(r, s, row).rows, left, s, hasCourt, envs);
  }

  lemma ResolvedIsTerminal(before: Rows, after: Rows, hasCourt: bool, envs: PerSource<Environment>)
    requires ResolvedBut(before, after, PerSource(false, false, false), hasCourt, envs)
    ensures forall s: Source :: after.At(s).status.Terminal()
  {
    forall s: Source
      ensures after.At(s).status.Terminal()
    {
      assert Resolved(before.At(s), after.At(s), s, hasCourt, envs.At(s));
    }
  }

  lemma LastUpdateWins(db: map<CaseId, Run>, c: CaseId, r: Run, r': Run)
    ensures db[c := r][c := r'] == db[c := r']
  {}

  class Orchestrator {
    const store: S.LookupStore
    const propertyCB: CB.CircuitBreaker
    const courtCB: CB.CircuitBreaker
    const scraCB: CB.CircuitBreaker
    const courtLimiter: RL.RateLimiter

    ghost predicate Valid()
      reads store, courtLimiter
    {
      store.Valid() && courtLimiter.Valid() && !courtLimiter.done
    }

    constructor (store: S.LookupStore, propertyCB: CB.CircuitBreaker, courtCB: CB.CircuitBreaker,
                 scraCB: CB.CircuitBreaker, courtLimiter: RL.RateLimiter)
      requires store.Valid() && courtLimiter.Valid() && !courtLimiter.done
      ensures Valid() && this.store == store && this.courtLimiter == courtLimiter
      ensures this.propertyCB == propertyCB && this.courtCB == courtCB && this.scraCB == scraCB
    {
      this.store, this.courtLimiter := store, courtLimiter;
      this.propertyCB, this.courtCB, this.scraCB := propertyCB, courtCB, scraCB;
    }

    /** Undisturbed by other calls, a trigger applies the idempotency rules. */
    method TriggerLookup(caseId: CaseId) returns (result: TriggerResult)
      requires Valid()
      modifies store
      ensures Valid()
      ensures caseId !in store.hasCourt ==> result == CaseNotFound && store.db == old(store.db)
      ensures caseId in store.hasCourt && caseId in old(store.db) ==>
                var (run, answer) := TriggerEffect(Some(old(store.db)[caseId]), 0);
                store.db == old(store.db)[caseId := run] && result == answer
      ensures caseId in store.hasCourt && caseId !in old(store.db) ==>
                && result.Launched?
                && exists id :: id !in old(store.runs) && store.db == old(store.db)[caseId := C.FreshRun(id)]
    {
      if caseId !in store.hasCourt {
        return CaseNotFound;
      }
      var run := store.GetLookupRunByCaseID(caseId);
      if run.Some? {
        match run.value.status
        case Complete =>
          assert store.db == store.db[caseId := store.db[caseId]];
          return Existing;
        case Pending =>
          assert store.db == store.db[caseId := store.db[caseId]];
          return Existing;
        case _ =>
          result := Retrigger(caseId, run.value.id);
          return;
      }
      var created := store.CreateLookupRun(caseId);
      return Launched;
    }

    /** The partial and failed branches. */
    method Retrigger(caseId: CaseId, runId: nat) returns (result: TriggerResult)
      requires Valid() && caseId in store.db && store.db[caseId].id == runId
      requires store.db[caseId].status.Partial? || store.db[caseId].status.Failed?
      modifies store
      ensures Valid()
      ensures var (run, answer) := TriggerEffect(Some(old(store.db)[caseId]), 0);
              store.db == old(store.db)[caseId := run] && result == answer
    {
      var retryable := store.GetRetryableSources(runId);
      if |retryable| == 0 {
        store.CompleteRun(runId, Complete);
        return Existing;
      }
      ResetAll(caseId, runId, retryable, C.Retryable(store.db[caseId].rows));
      return Launched;
    }

    method ResetAll(caseId: CaseId, runId: nat, ids: seq<nat>, ghost todo: seq<Source>)
      requires Valid() && caseId in store.db && store.db[caseId].id == runId && |ids| == |todo|
      requires forall i :: 0 <= i < |ids| ==> ids[i] == store.rowIds[caseId].At(todo[i])
      modifies store
      ensures Valid()
      ensures store.db == old(store.db)[caseId := C.SetStatus(S.ResetRows(old(store.db)[caseId], todo), Pending)]
    {
      ghost var r := S.ResetRows(store.db[caseId], todo);
      S.ResetRowsAt(store.db[caseId], todo, Court);
      S.RowsAreDistinct(store.runs, store.sources, store.nextId, store.db, store.rowIds);
      store.ResetSourcesToPending(ids);
      S.ResetOfOneRun(old(store.db), store.db, store.rowIds, ids, caseId, todo);
      assert store.db[caseId] == r;
      store.ResetRunToPending(runId);
      LastUpdateWins(old(store.db), caseId, r, C.SetStatus(r, Pending));
    }

    predicate HasCourt(c: CaseId) {
      c in store.hasCourt && store.hasCourt[c]
    }

    /** The row of `src` has been written, and nothing else in the tables has changed. */
    twostate predicate Wrote(c: CaseId, src: S.LookupSource, row: Row)
      reads this, store
    {
      && c in old(store.db) && store.rowIds == old(store.rowIds)
      && store.db == old(store.db)[c := C.SetRow(old(store.db)[c], src.source, row)]
    }

    ghost predicate Loaded(c: CaseId, src: S.LookupSource)
      reads store
    {
      c in store.db && c in store.rowIds && store.rowIds[c].At(src.source) == src.id
    }

    /** The branch every processor takes when its breaker refuses. */
    method WriteRefused(ghost c: CaseId, src: S.LookupSource, ghost env: Environment)
      returns (ghost run: seq<T.Action>, ghost row: Row)
      requires Valid() && Loaded(c, src) && !T.Skipped(TaskFor(src, HasCourt(c)))
      modifies store
      ensures Valid() && Wrote(c, src, row)
      ensures Serves(TaskFor(src, HasCourt(c)), env, run, row) && run[0] == T.Ask(false)
    {
      store.SetSourceResult(src.id, T.FailedRow(src.row.attempts, BreakerOpen, None));
      RefusedRun(TaskFor(src, HasCourt(c)), env);
      run := [T.Ask(false), T.Write];
      row := T.FailedRow(src.row.attempts, BreakerOpen, None);
    }

    method ProcessProperty(ghost c: CaseId, src: S.LookupSource, env: Environment)
      returns (ghost run: seq<T.Action>, ghost row: Row)
      requires Valid() && Loaded(c, src) && src.source.Property? && Plausible(env, Property)
      modifies store, propertyCB
      ensures Valid() && Wrote(c, src, row)
      ensures Serves(TaskFor(src, HasCourt(c)), env, run, row)
      ensures run[0] == T.Ask(CB.Admits(old(propertyCB.Value()), env.askAt))
      ensures propertyCB.Value() == AfterTask(old(propertyCB.Value()), env, run[0].ok, row)
    {
      var ok := propertyCB.Allow(env.askAt);
      if !ok {
        run, row := WriteRefused(c, src, env);
        return;
      }
      run, row := FetchProperty(c, src, env);
    }

    /** From the admission on. */
    method FetchProperty(ghost c: CaseId, src: S.LookupSource, env: Environment)
      returns (ghost run: seq<T.Action>, ghost row: Row)
      requires Valid() && Loaded(c, src) && src.source.Property? && Plausible(env, Property)
      modifies store, propertyCB
      ensures Valid() && Wrote(c, src, row)
      ensures Serves(TaskFor(src, HasCourt(c)), env, run, row) && run[0] == T.Ask(true)
      ensures propertyCB.Value() == AfterReport(old(propertyCB.Value()), env, row)
    {
      ghost var t0 := TaskFor(src, HasCourt(c));
      var result;
      result, run := RetryCalls(env, src.row.attempts, t0);
      Report(propertyCB, env, result);
      store.SetSourceResult(src.id, result);
      row := result;
    }

    method ProcessCourt(ghost c: CaseId, src: S.LookupSource, env: Environment)
      returns (ghost run: seq<T.Action>, ghost row: Row)
      requires Valid() && Loaded(c, src) && src.source.Court? && Plausible(env, Court) && HasCourt(c)
      modifies store, courtCB, courtLimiter
      ensures Valid() && Wrote(c, src, row)
      ensures Serves(TaskFor(src, HasCourt(c)), env, run, row)
      ensures run[0] == T.Ask(CB.Admits(old(courtCB.Value()), env.askAt))
      ensures courtCB.Value() == AfterTask(old(courtCB.Value()), env, run[0].ok, row)
      ensures courtLimiter.book.grants == old(courtLimiter.book.grants) + T.Indicator(run[0].ok)
    {
      var ok := courtCB.Allow(env.askAt);
      if !ok {
        run, row := WriteRefused(c, src, env);
        return;
      }
      TakeToken();
      run, row := SearchCourt(c, src, env);
    }

    /** From the limiter token on. No filing found is a success without a record. */
    method SearchCourt(ghost c: CaseId, src: S.LookupSource, env: Environment)
      returns (ghost run: seq<T.Action>, ghost row: Row)
      requires Valid() && Loaded(c, src) && src.source.Court? && Plausible(env, Court) && HasCourt(c)
      modifies store, courtCB
      ensures Valid() && Wrote(c, src, row)
      ensures Serves(TaskFor(src, HasCourt(c)), env, run, row) && run[0] == T.Ask(true)
      ensures courtCB.Value() == AfterReport(old(courtCB.Value()), env, row)
    {
      ghost var t0 := TaskFor(src, HasCourt(c));
      var result;
      result, run := RetryCalls(env, src.row.attempts, t0);
      Report(courtCB, env, result);
      store.SetSourceResult(src.id, result);
      row := result;
    }

    /** While a caller is blocked, the ticker and the refill goroutine run. */
    method Background()
      requires courtLimiter.Valid() && !courtLimiter.done
      modifies courtLimiter
      ensures courtLimiter.Valid() && !courtLimiter.done
      ensures courtLimiter.book.grants == old(courtLimiter.book.grants)
    {
      var ticks: bool, deposits: bool := *, *;
      if ticks {
        courtLimiter.Tick();
      } else if deposits && courtLimiter.holding {
        var dropped := courtLimiter.Refill();
      } else if courtLimiter.pending && !courtLimiter.holding {
        courtLimiter.Receive();
      }
    }

    /** `Wait`: after any such steps, the ticks having gone on until there is a token. */
    method TakeToken()
      requires courtLimiter.Valid() && !courtLimiter.done
      modifies courtLimiter
      ensures courtLimiter.Valid() && !courtLimiter.done
      ensures courtLimiter.book.grants == old(courtLimiter.book.grants) + 1
    {
      var steps: int := *;
      while steps > 0
        invariant courtLimiter.Valid() && !courtLimiter.done
        invariant courtLimiter.book.grants == old(courtLimiter.book.grants)
      {
        Background();
        steps := steps - 1;
      }
      if courtLimiter.tokens == 0 {
        if !courtLimiter.holding {
          if !courtLimiter.pending {
            courtLimiter.Tick();
          }
          courtLimiter.Receive();
        }
        var dropped := courtLimiter.Refill();
      }
      var waited := courtLimiter.Wait(false);
    }

    /** Both phases: submit with retry, then poll. */
    method ProcessScra(ghost c: CaseId, src: S.LookupSource, env: Environment)
      returns (ghost run: seq<T.Action>, ghost row: Row)
      requires Valid() && Loaded(c, src) && src.source.Scra? && Plausible(env, Scra)
      modifies store, scraCB
      ensures Valid() && Wrote(c, src, row)
      ensures Serves(TaskFor(src, HasCourt(c)), env, run, row)
      ensures run[0] == T.Ask(CB.Admits(old(scraCB.Value()), env.askAt))
      ensures scraCB.Value() == AfterTask(old(scraCB.Value()), env, run[0].ok, row)
    {
      var ok := scraCB.Allow(env.askAt);
      if !ok {
        run, row := WriteRefused(c, src, env);
        return;
      }
      run, row := SubmitScra(c, src, env);
    }

    /** The branch in which the search cannot even be submitted. */
    method FailSubmit(ghost c: CaseId, src: S.LookupSource, env: Environment, permanent: bool, submitAttempts: nat)
      returns (row: Row)
      requires Valid() && Loaded(c, src)
      modifies store, scraCB
      ensures Valid() && Wrote(c, src, row)
      ensures row == T.FailedRow(src.row.attempts + submitAttempts, CallFailed(permanent), None)
      ensures scraCB.Value() == AfterReport(old(scraCB.Value()), env, row)
    {
      scraCB.RecordFailure(env.tellAt);
      row := T.FailedRow(src.row.attempts + submitAttempts, CallFailed(permanent), None);
      store.SetSourceResult(src.id, row);
    }

    method SubmitScra(ghost c: CaseId, src: S.LookupSource, env: Environment)
      returns (ghost run: seq<T.Action>, ghost row: Row)
      requires Valid() && Loaded(c, src) && src.source.Scra? && Plausible(env, Scra)
      modifies store, scraCB
      ensures Valid() && Wrote(c, src, row)
      ensures Serves(TaskFor(src, HasCourt(c)), env, run, row) && run[0] == T.Ask(true)
      ensures scraCB.Value() == AfterReport(old(scraCB.Value()), env, row)
    {
      var failure, submitAttempts, searchId;
      failure, submitAttempts, searchId, run := SubmitSearch(env, TaskFor(src, HasCourt(c)));
      run, row := AfterSubmit(c, src, env, failure, submitAttempts, searchId, run);
    }

    method AfterSubmit(ghost c: CaseId, src: S.LookupSource, env: Environment, failure: Option<bool>,
                       submitAttempts: nat, searchId: string, ghost submitted: seq<T.Action>)
      returns (ghost run: seq<T.Action>, ghost row: Row)
      requires Valid() && Loaded(c, src) && src.source.Scra?
      requires SubmitEnded(TaskFor(src, HasCourt(c)), env, failure, submitAttempts, searchId, submitted)
      modifies store, scraCB
      ensures Valid() && Wrote(c, src, row)
      ensures Serves(TaskFor(src, HasCourt(c)), env, run, row) && run[0] == T.Ask(true)
      ensures scraCB.Value() == AfterReport(old(scraCB.Value()), env, row)
    {
      if failure.Some? {
        run := submitted;
        row := FailSubmit(c, src, env, failure.value, submitAttempts);
      } else {
        run, row := PollScra(c, src, env, searchId, submitAttempts, submitted);
      }
    }

    method PollScra(ghost c: CaseId, src: S.LookupSource, env: Environment, searchId: string, submitAttempts: nat,
                    ghost submitted: seq<T.Action>)
      returns (ghost run: seq<T.Action>, ghost row: Row)
      requires Valid() && Loaded(c, src) && src.source.Scra?
      requires Submitted(TaskFor(src, HasCourt(c)), env, submitted, submitAttempts, searchId)
      modifies store, scraCB
      ensures Valid() && Wrote(c, src, row)
      ensures Serves(TaskFor(src, HasCourt(c)), env, run, row) && run[0] == T.Ask(true)
      ensures scraCB.Value() == AfterReport(old(scraCB.Value()), env, row)
    {
      ghost var t0 := TaskFor(src, HasCourt(c));
      ghost var t1 := t0.(made := submitAttempts, pc := T.Polling(T.POLL_SECONDS, false, searchId));
      ghost var t;
      var ended, totalAttempts;
      ended, totalAttempts, run, t :=
        PollLoop(env, src.row.attempts + submitAttempts, searchId, t0, submitted, t1);
      if ended.None? {
        run, row := GiveUp(c, src, env, searchId, totalAttempts, run, t);
        return;
      }
      run := ReportAndWrite(t0, env, run, t);
      row := FinishPoll(c, src, env, searchId, totalAttempts, ended.value);
    }

    /** The timeout branch: the row is written, the breaker is not told. */
    method GiveUp(ghost c: CaseId, src: S.LookupSource, ghost env: Environment, searchId: string,
                  totalAttempts: nat, ghost polled: seq<T.Action>, ghost t: T.Task)
      returns (ghost run: seq<T.Action>, ghost row: Row)
      requires Valid() && Loaded(c, src) && src.source.Scra?
      requires R.Path(TaskFor(src, HasCourt(c)), polled, t) && |polled| > 0 && Follows(env, polled)
      requires T.Enabled(t, T.Expire) && t.pc.searchId == searchId && t.base + t.made == totalAttempts
      modifies store
      ensures Valid() && Wrote(c, src, row) && row.error == Some(PollTimedOut)
      ensures Serves(TaskFor(src, HasCourt(c)), env, run, row) && run[0] == polled[0]
    {
      run := ExpireAndWrite(TaskFor(src, HasCourt(c)), env, polled, t);
      var late := T.FailedRow(totalAttempts, PollTimedOut, Some(searchId));
      store.SetSourceResult(src.id, late);
      row := late;
    }

    /** The three branches in which a poll ends the search. */
    method FinishPoll(ghost c: CaseId, src: S.LookupSource, env: Environment, searchId: string,
                      totalAttempts: nat, result: T.PollOutcome)
      returns (row: Row)
      requires Valid() && Loaded(c, src) && src.source.Scra?
      requires !result.StillPending? && !result.PollTransient?
      modifies store, scraCB
      ensures Valid() && Wrote(c, src, row)
      ensures row == PolledRow(result, totalAttempts, searchId)
      ensures scraCB.Value() == AfterReport(old(scraCB.Value()), env, row)
    {
      if result.SearchError? {
        scraCB.RecordFailure(env.tellAt);
        row := T.FailedRow(totalAttempts, SearchFailed, Some(searchId));
      } else if result.SearchComplete? {
        scraCB.RecordSuccess();
        row := T.SuccessRow(totalAttempts, Some(result.data), Some(searchId));
      } else {
        scraCB.RecordFailure(env.tellAt);
        row := T.FailedRow(totalAttempts, CallFailed(true), Some(searchId));
      }
      store.SetSourceResult(src.id, row);
    }

    method ProcessSource(ghost c: CaseId, courtNumber: bool, src: S.LookupSource, env: Environment)
      returns (ghost run: seq<T.Action>, ghost row: Row)
      requires Valid() && Loaded(c, src) && Plausible(env, src.source) && courtNumber == HasCourt(c)
      modifies store, propertyCB, courtCB, scraCB, courtLimiter
      ensures Valid() && Wrote(c, src, row)
      ensures Serves(TaskFor(src, HasCourt(c)), env, run, row)
    {
      match src.source
      case Property => run, row := ProcessProperty(c, src, env);
      case Court =>
        if !courtNumber {
          store.SetSourceResult(src.id, T.SkippedRow(src.row.attempts));
          row := T.SkippedRow(src.row.attempts);
          R.RunOne(TaskFor(src, HasCourt(c)), T.Skip);
          FollowsTwo(env, T.Skip, T.Write);
          WriteCompletes(TaskFor(src, HasCourt(c)), env, [T.Skip], TaskFor(src, HasCourt(c)).(pc := T.Writing(row)));
          run := [T.Skip] + [T.Write];
          return;
        }
        run, row := ProcessCourt(c, src, env);
      case Scra => run, row := ProcessScra(c, src, env);
    }

    /** The goroutine for one source, or none if its row is settled. */
    method RunSource(ghost c: CaseId, courtNumber: bool, src: S.LookupSource, envs: PerSource<Environment>,
                     ghost rows: Rows, ghost left: PerSource<bool>)
      requires Valid() && Loaded(c, src) && Plausible(envs.At(src.source), src.source) && courtNumber == HasCourt(c)
      requires left.At(src.source) && src.row == rows.At(src.source)
      requires ResolvedBut(rows, store.db[c].rows, left, courtNumber, envs)
      modifies store, propertyCB, courtCB, scraCB, courtLimiter
      ensures Valid() && store.rowIds == old(store.rowIds)
      ensures c in store.db && store.db == old(store.db)[c := store.db[c]] && store.db[c].id == old(store.db)[c].id
      ensures ResolvedBut(rows, store.db[c].rows, left.With(src.source, false), courtNumber, envs)
    {
      if src.row.status.Settled() {
        SettledIsResolved(rows, store.db[c].rows, left, src.source, courtNumber, envs);
        assert store.db == store.db[c := store.db[c]];
        return;
      }
      ghost var r := store.db[c];
      ghost var run, row := ProcessSource(c, courtNumber, src, envs.At(src.source));
      WrittenIsResolved(rows, r, left, src.source, courtNumber, envs, run, row);
    }

    /** The worker, with its three tasks run one after the other in any order: every unsettled
        row is resolved, and the run gets the status that summarises its rows. */
    method RunLookup(caseId: CaseId, runId: nat, envs: PerSource<Environment>)
      requires Valid() && caseId in store.db && store.db[caseId].id == runId && caseId in store.hasCourt
      requires forall s: Source :: Plausible(envs.At(s), s)
      modifies store, propertyCB, courtCB, scraCB, courtLimiter
      ensures Valid() && caseId in store.db
      ensures store.db == old(store.db)[caseId := store.db[caseId]]
      ensures var r, r' := old(store.db)[caseId], store.db[caseId];
              && r'.id == r.id && r'.completed && r'.status == C.Overall(r'.rows)
              && forall s: Source ::
                   Resolved(r.rows.At(s), r'.rows.At(s), s, store.hasCourt[caseId], envs.At(s))
      ensures var r' := store.db[caseId];
              && (r'.status.Complete? <==> forall s: Source :: !r'.rows.At(s).status.SFailed?)
              && (r'.status.Failed? <==> (exists s: Source :: r'.rows.At(s).status.SFailed?)
                                         && forall s: Source :: !r'.rows.At(s).status.SSuccess?)
              && (r'.status.Partial? <==> (exists s: Source :: r'.rows.At(s).status.SFailed?)
                                          && exists s: Source :: r'.rows.At(s).status.SSuccess?)
    {
      RunSources(caseId, runId, envs);
      ghost var r := store.db[caseId];
      Summarise(caseId, runId);
      assert store.db[caseId].rows == r.rows;
      ResolvedIsTerminal(old(store.db)[caseId].rows, r.rows, store.hasCourt[caseId], envs);
      P.OverallTells(r.rows);
    }

    method RunSources(caseId: CaseId, runId: nat, envs: PerSource<Environment>)
      requires Valid() && caseId in store.db && store.db[caseId].id == runId && caseId in store.hasCourt
      requires forall s: Source :: Plausible(envs.At(s), s)
      modifies store, propertyCB, courtCB, scraCB, courtLimiter
      ensures Valid() && caseId in store.db && store.db[caseId].id == runId
      ensures store.db == old(store.db)[caseId := store.db[caseId]]
      ensures ResolvedBut(old(store.db)[caseId].rows, store.db[caseId].rows, PerSource(false, false, false),
                          store.hasCourt[caseId], envs)
    {
      var sources := store.GetSourcesByRunID(runId);
      ghost var rows := store.db[caseId].rows;
      var left := PerSource(true, true, true);
      while left != PerSource(false, false, false)
        invariant Valid() && caseId in store.db && store.rowIds == old(store.rowIds)
        invariant store.db == old(store.db)[caseId := store.db[caseId]] && store.db[caseId].id == runId
        invariant ResolvedBut(rows, store.db[caseId].rows, left, store.hasCourt[caseId], envs)
        decreases HowMany(left)
      {
        ghost var one := OneFewer(left);
        var s: Source :| left.At(s);
        ghost var r := store.db[caseId];
        RowAtPosition(old(store.db)[caseId], old(store.rowIds)[caseId], s);
        RunSource(caseId, store.hasCourt[caseId], sources[Position(s)], envs, rows, left);
        LastUpdateWins(old(store.db), caseId, r, store.db[caseId]);
        left := left.With(s, false);
      }
    }

    /** Reading the rows back and persisting their summary. */
    method Summarise(ghost caseId: CaseId, runId: nat)
      requires Valid() && caseId in store.db && store.db[caseId].id == runId
      modifies store
      ensures Valid()
      ensures var r := old(store.db)[caseId];
              store.db == old(store.db)[caseId := r.(status := C.Overall(r.rows), completed := true)]
    {
      var rows := store.GetSourcesByRunID(runId);
      var statuses := [rows[0].row.status, rows[1].row.status, rows[2].row.status];
      assert ALL_SOURCES[0] == Court && ALL_SOURCES[1] == Property && ALL_SOURCES[2] == Scra;
      var overall := ComputeOverallStatus(statuses);
      store.CompleteRun(runId, overall);
    }
  }
}

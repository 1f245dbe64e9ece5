/** The sequential `TriggerLookup` and the protocol machine agree: a trigger whose steps
    nobody interleaves with has exactly the effect the imperative code is proved to have. */
module TriggerSteps {
  import opened Types
  import opened LookupCase
  import opened RetriggerSteps
  import O = Orchestrator

  /** The state a trigger leaves behind when nothing else happens meanwhile. */
  function Served(c: CaseState, t: nat, w: nat, newId: nat): CaseState {
    var (r, result) := O.TriggerEffect(c.run, newId);
    if result.Launched?
    then Moved(c, t, Answered(202), r).(workers := c.workers[w := Worker(c.run.None?, Loading)])
    else Moved(c, t, Answered(200), r)
  }

  /** Nothing left to retry: the run is closed. */
  lemma CloseSteps(c0: CaseState, listed: seq<Action>, c: CaseState, t: nat, r: Run) returns (acts: seq<Action>)
    requires Path(c0, listed, c) && By(listed, {t}) && c == Moved(c0, t, NothingToRetry, r)
    ensures Path(c0, acts, Moved(c0, t, Answered(200), SetStatus(r, Complete))) && By(acts, {t})
  {
    var c';
    acts, c' := Then(c0, listed, c, CompleteAnyway(t));
    assert c' == Moved(c0, t, Answered(200), SetStatus(r, Complete));
  }

  lemma Retried(c0: CaseState, c: CaseState, t: nat, w: nat, todo: seq<Source>)
    requires c0.run.Some? && (c0.run.value.status.Partial? || c0.run.value.status.Failed?)
    requires todo == Retryable(c0.run.value.rows) && todo != []
    requires c == Moved(c0, t, Resetting(todo), c0.run.value)
    ensures Relaunched(c, t, w, O.S.ResetRows(c0.run.value, todo)) == Served(c0, t, w, 0)
  {}

  lemma RetryOrClose(c0: CaseState, read: seq<Action>, c: CaseState, t: nat, w: nat) returns (acts: seq<Action>)
    requires c0.run.Some? && w !in c0.workers && (c0.run.value.status.Partial? || c0.run.value.status.Failed?)
    requires Path(c0, read, c) && By(read, {t}) && c == Moved(c0, t, Fetching, c0.run.value)
    ensures Path(c0, acts, Served(c0, t, w, 0)) && By(acts, {t})
  {
    var r := c0.run.value;
    var todo := Retryable(r.rows);
    var listed, c' := Then(c0, read, c, GetRetryable(t));
    if todo == [] {
      assert c' == Moved(c0, t, NothingToRetry, r);
      acts := CloseSteps(c0, listed, c', t, r);
    } else {
      assert c' == Moved(c0, t, Resetting(todo), r);
      var retry := RetrySteps(c', t, w, todo);
      RunAppend(c0, listed, retry);
      acts := listed + retry;
      Retried(c0, c', t, w, todo);
    }
  }

  lemma CreateSteps(c0: CaseState, read: seq<Action>, c: CaseState, t: nat, w: nat, newId: nat)
    returns (acts: seq<Action>)
    requires c0.run.None? && w !in c0.workers && c == Goto(c0, t, NoRunSeen)
    requires Path(c0, read, c) && By(read, {t})
    ensures Path(c0, acts, Served(c0, t, w, newId)) && By(acts, {t})
  {
    var c';
    acts, c' := Then(c0, read, c, Create(t, newId));
    assert c' == Moved(c0, t, Launching(true), FreshRun(newId));
    acts, c' := Then(c0, acts, c', Spawn(t, w));
    assert c' == Served(c0, t, w, newId);
  }

  lemma ReadSteps(c0: CaseState, t: nat) returns (acts: seq<Action>)
    requires t !in c0.triggers
    ensures Path(c0, acts, Goto(c0, t, if c0.run.None? then NoRunSeen else RunSeen(c0.run.value.status)))
    ensures By(acts, {t})
  {
    RunOne(c0, Arrive(t));
    var c;
    acts, c := Then(c0, [Arrive(t)], Goto(c0, t, Arrived), ReadRun(t));
    assert c == Goto(c0, t, if c0.run.None? then NoRunSeen else RunSeen(c0.run.value.status));
  }

  /** From any state of the case, whatever else is in flight: a trigger that runs through
      undisturbed creates, retries or leaves alone exactly as the idempotency rules say,
      answers 202 exactly when it launched a worker, and touches nothing else. */
  lemma TriggerAlone(c: CaseState, t: nat, w: nat, newId: nat) returns (acts: seq<Action>)
    requires t !in c.triggers && w !in c.workers
    ensures Path(c, acts, Served(c, t, w, newId)) && By(acts, {t})
  {
    acts := ReadSteps(c, t);
    if c.run.None? {
      acts := CreateSteps(c, acts, Goto(c, t, NoRunSeen), t, w, newId);
    } else {
      var c';
      acts, c' := Then(c, acts, Goto(c, t, RunSeen(c.run.value.status)), ReadSources(t));
      if c.run.value.status.Complete? || c.run.value.status.Pending? {
        assert c' == Served(c, t, w, newId);
      } else {
        assert c' == Moved(c, t, Fetching, c.run.value);
        acts := RetryOrClose(c, acts, c', t, w);
      }
    }
  }
}

/** Stretches of a re-trigger's way through the protocol machine, store call by store call:
    resetting the listed rows, and from there to the worker. Everything else in the case
    stays as it is, so that they can be put together with whatever other calls and workers
    do before and after. */
module RetriggerSteps {
  import opened Types
  import opened LookupCase
  import P = LookupProtocol
  import S = LookupStore

  /** A run in which no call reads the run row. */
  ghost predicate Onward(from: CaseState, acts: seq<Action>, to: CaseState) {
    Path(from, acts, to) && forall a <- acts :: !a.ReadRun?
  }

  /** Every step is one of these calls' own. */
  ghost predicate By(acts: seq<Action>, ts: set<nat>) {
    forall a <- acts :: P.TriggerIn(a).Some? && P.TriggerIn(a).value in ts
  }

  lemma Stay(c: CaseState)
    ensures Onward(c, [], c)
  {}

  lemma Extend(from: CaseState, acts: seq<Action>, c: CaseState, a: Action) returns (acts': seq<Action>, c': CaseState)
    requires Onward(from, acts, c) && Enabled(c, a) && !a.ReadRun?
    ensures Onward(from, acts', c') && c' == Exec(c, a) && acts' == acts + [a]
  {
    acts', c' := acts + [a], Exec(c, a);
    RunOne(c, a);
    RunAppend(from, acts, [a]);
  }

  lemma Join(from: CaseState, acts: seq<Action>, c: CaseState, more: seq<Action>, to: CaseState)
    returns (acts': seq<Action>)
    requires Onward(from, acts, c) && Onward(c, more, to)
    ensures Onward(from, acts', to) && acts' == acts + more
  {
    acts' := acts + more;
    RunAppend(from, acts, more);
  }

  /** `c`, but with its run changed and one trigger somewhere else. */
  function Moved(c: CaseState, t: nat, pc: Trigger, r: Run): CaseState {
    c.(run := Some(r), triggers := c.triggers[t := pc])
  }

  /** The loop of `ResetSourcesToPending`. */
  lemma {:induction false} ResetSteps(c: CaseState, t: nat, todo: seq<Source>, n: nat) returns (acts: seq<Action>)
    requires At(c, t, Resetting(todo)) && c.run.Some? && todo != [] && n <= |todo|
    ensures Onward(c, acts, Moved(c, t, if n == |todo| then SourcesReset else Resetting(todo[n..]),
                                  S.ResetRows(c.run.value, todo[..n])))
    ensures By(acts, {t})
  {
    if n == 0 {
      acts := [];
      assert todo[0..] == todo && c.triggers[t := Resetting(todo)] == c.triggers;
    } else {
      acts := ResetSteps(c, t, todo, n - 1);
      var before := Moved(c, t, Resetting(todo[n - 1..]), S.ResetRows(c.run.value, todo[..n - 1]));
      assert todo[n - 1..][0] == todo[n - 1] && todo[n - 1..][1..] == todo[n..];
      S.ResetOneMore(c.run.value, todo, n - 1);
      var c';
      acts, c' := Extend(c, acts, before, ResetSource(t));
    }
  }

  /** What a retry leaves behind that has reset its sources and launched worker `w`. */
  function Relaunched(c: CaseState, t: nat, w: nat, r: Run): CaseState {
    Moved(c, t, Answered(202), SetStatus(r, Pending)).(workers := c.workers[w := Worker(false, Loading)])
  }

  /** From the reset of the last row to the worker. */
  lemma RelaunchSteps(c: CaseState, t: nat, w: nat) returns (acts: seq<Action>)
    requires At(c, t, SourcesReset) && c.run.Some? && w !in c.workers
    ensures Onward(c, acts, Relaunched(c, t, w, c.run.value)) && By(acts, {t})
  {
    var r := c.run.value;
    var c';
    Stay(c);
    acts, c' := Extend(c, [], c, ResetRun(t));
    assert c' == Moved(c, t, RunReset, SetStatus(r, Pending));
    acts, c' := Extend(c, acts, c', Reload(t));
    assert c' == Moved(c, t, Launching(false), SetStatus(r, Pending));
    acts, c' := Extend(c, acts, c', Spawn(t, w));
    assert c' == Relaunched(c, t, w, r);
  }

  /** From the list of retryable sources to the worker. */
  lemma RetrySteps(c: CaseState, t: nat, w: nat, todo: seq<Source>) returns (acts: seq<Action>)
    requires At(c, t, Resetting(todo)) && c.run.Some? && todo != [] && w !in c.workers
    ensures Onward(c, acts, Relaunched(c, t, w, S.ResetRows(c.run.value, todo))) && By(acts, {t})
  {
    var r := S.ResetRows(c.run.value, todo);
    var resets := ResetSteps(c, t, todo, |todo|);
    assert todo[..|todo|] == todo;
    var c1 := Moved(c, t, SourcesReset, r);
    var launch := RelaunchSteps(c1, t, w);
    assert Relaunched(c1, t, w, r) == Relaunched(c, t, w, r);
    acts := Join(c, resets, c1, launch, Relaunched(c, t, w, r));
  }
}

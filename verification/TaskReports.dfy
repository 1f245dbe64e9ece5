/** The sequential processors and the gateway tell the breaker the same: the breaker calls of
    a task's run in the gateway, one after the other, leave the breaker as the code does. */
module TaskReports {
  import opened Types
  import opened SourceTask
  import CB = CircuitBreaker
  import G = Gateway
  import O = Orchestrator
  import R = TaskRuns

  /** The call that a step of the task is in the gateway, at the clock readings of `env`. */
  function CallsOf(t: Task, a: Action, env: O.Environment): seq<CB.TimedCall>
    requires Enabled(t, a)
  {
    match G.BreakerEvent(Caller("", 0), t, a)
    case Some(Ask(_, _)) => [CB.TimedCall(CB.Allow, env.askAt)]
    case Some(Report(_, ok)) => [CB.TimedCall(if ok then CB.Success else CB.Failure, env.tellAt)]
    case _ => []
  }

  ghost function Along(t: Task, run: seq<Action>, env: O.Environment): seq<CB.TimedCall>
    requires R.Legal(t, run)
    decreases |run|
  {
    if run == [] then [] else CallsOf(t, run[0], env) + Along(Exec(t, run[0]), run[1..], env)
  }

  lemma CompletesOnward(t: Task, run: seq<Action>, row: Row)
    requires O.Completes(t, run, row) && !t.pc.Writing?
    ensures |run| >= 2 && O.Completes(Exec(t, run[0]), run[1..], row)
  {
    var n := |run| - 1;
    assert run[..n][0] == run[0] && run[..n][1..] == run[1..][..n - 1];
  }

  lemma FinishedIsOver(t: Task, acts: seq<Action>)
    requires t.pc.Finished? && R.Legal(t, acts)
    ensures acts == []
  {}

  /** The write tells nobody. */
  lemma OnlyWrite(t: Task, run: seq<Action>, row: Row, env: O.Environment)
    requires O.Completes(t, run, row) && t.pc.Writing?
    ensures row == t.pc.row && Along(t, run, env) == []
  {
    assert run[0].Write?;
    FinishedIsOver(Exec(t, run[0]), run[1..]);
    assert run[..0] == [];
  }

  lemma {:induction false} FromFlight(t: Task, run: seq<Action>, row: Row, env: O.Environment, b: CB.Breaker)
    requires TaskInv(t) && InFlight(t) && O.Completes(t, run, row)
    ensures CB.AfterAll(b, Along(t, run, env)) == O.AfterReport(b, env, row)
    decreases |run|
  {
    CompletesOnward(t, run, row);
    TaskInvStep(t, run[0]);
    var t', calls := Exec(t, run[0]), CallsOf(t, run[0], env);
    if t'.pc.Writing? {
      OnlyWrite(t', run[1..], row, env);
      assert Along(t, run, env) == calls;
      if calls != [] { assert calls[..0] == []; }
    } else {
      assert calls == [] && Along(t, run, env) == Along(t', run[1..], env);
      FromFlight(t', run[1..], row, env, b);
    }
  }

  /** Whatever run the task has: admitted or refused, told of its row or not at all. */
  lemma SameReports(t: Task, run: seq<Action>, row: Row, env: O.Environment, b: CB.Breaker)
    requires t.pc.Begin? && t.made == 0 && !Skipped(t) && O.Completes(t, run, row)
    ensures run[0].Ask? && CB.AfterAll(b, Along(t, run, env)) == O.AfterTask(b, env, run[0].ok, row)
  {
    CompletesOnward(t, run, row);
    TaskInvStep(t, run[0]);
    var t', rest := Exec(t, run[0]), Along(Exec(t, run[0]), run[1..], env);
    var asked := CB.TimedCall(CB.Allow, env.askAt);
    assert Along(t, run, env) == [asked] + rest;
    assert [asked][..0] == [];
    assert CB.AfterAll(b, [asked]) == CB.After(b, asked);
    CB.AfterAllAppend(b, [asked], rest);
    if run[0].ok {
      FromFlight(t', run[1..], row, env, CB.After(b, asked));
    } else {
      OnlyWrite(t', run[1..], row, env);
    }
  }
}

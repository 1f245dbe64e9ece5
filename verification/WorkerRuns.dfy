/** A worker that goes its whole way through the protocol machine with every source
    answering, whatever state the case is in otherwise: a run of one task lifts to a run of
    the case, the tasks of a worker are lifted one after the other, and what is left is its
    summary of the rows. */
module WorkerRuns {
  import opened Types
  import opened Retry
  import opened LookupCase
  import opened RetriggerSteps
  import T = SourceTask
  import R = TaskRuns

  // -------------------------------------------------------------------------
  // One task
  // -------------------------------------------------------------------------

  /** The case with worker `w`'s task for `s` replaced, and its calls counted. */
  function WithTask(c: CaseState, w: nat, s: Source, t: T.Task, calls: nat): CaseState
    requires HasTask(c, w, s)
  {
    WithPhase(c, w, Working(c.workers[w].phase.tasks.With(s, Some(t)))).(calls := c.calls.With(s, calls))
  }

  lemma WithTaskTwice(c: CaseState, w: nat, s: Source, t: T.Task, n: nat, t': T.Task, n': nat)
    requires HasTask(c, w, s)
    ensures var c1 := WithTask(c, w, s, t, n);
            && HasTask(c1, w, s) && TaskOf(c1, w, s) == t && c1.run == c.run && c1.calls.At(s) == n
            && WithTask(c1, w, s, t', n') == WithTask(c, w, s, t', n')
  {}

  /** Runs of a task lift to runs of its case. */
  lemma {:induction false} LiftTask(from: CaseState, acts: seq<Action>, c: CaseState, w: nat, s: Source,
                                    run: seq<T.Action>)
    returns (acts': seq<Action>, c': CaseState)
    requires Onward(from, acts, c) && HasTask(c, w, s) && c.run.Some?
    requires R.Legal(TaskOf(c, w, s), run) && forall a <- run :: !a.Write?
    ensures Onward(from, acts', c')
    ensures c' == WithTask(c, w, s, R.ExecAll(TaskOf(c, w, s), run), c.calls.At(s) + R.Tally(run, T.IsCall))
    decreases |run|
  {
    var t := TaskOf(c, w, s);
    if run == [] {
      acts', c' := acts, c;
      assert c' == WithTask(c, w, s, t, c.calls.At(s));
    } else {
      assert run[0] in run;
      var c1;
      acts', c1 := Extend(from, acts, c, TaskStep(w, s, run[0]));
      var t1, n1 := T.Exec(t, run[0]), c.calls.At(s) + T.Indicator(T.IsCall(run[0]));
      assert c1 == WithTask(c, w, s, t1, n1);
      WithTaskTwice(c, w, s, t1, n1, R.ExecAll(t, run), c.calls.At(s) + R.Tally(run, T.IsCall));
      acts', c' := LiftTask(from, acts', c1, w, s, run[1..]);
    }
  }

  predicate Startable(c: CaseState, w: nat, s: Source) {
    && HasTask(c, w, s) && c.run.Some?
    && TaskOf(c, w, s).source == s && TaskOf(c, w, s).pc.Begin? && TaskOf(c, w, s).made == 0
  }

  /** A run of the task that ends by writing `row`. */
  lemma FinishTask(from: CaseState, acts: seq<Action>, c: CaseState, w: nat, s: Source, run: seq<T.Action>, row: Row)
    returns (acts': seq<Action>, c': CaseState)
    requires Onward(from, acts, c) && Startable(c, w, s)
    requires R.Legal(TaskOf(c, w, s), run) && forall a <- run :: !a.Write?
    requires R.ExecAll(TaskOf(c, w, s), run).pc == T.Writing(row)
    ensures Onward(from, acts', c')
    ensures var made := R.Tally(run, T.IsCall);
            var done := R.ExecAll(TaskOf(c, w, s), run).(pc := T.Finished);
            c' == WithRun(WithTask(c, w, s, done, c.calls.At(s) + made), SetRow(c.run.value, s, row))
  {
    var t := R.ExecAll(TaskOf(c, w, s), run);
    var n := c.calls.At(s) + R.Tally(run, T.IsCall);
    var c1;
    acts', c1 := LiftTask(from, acts, c, w, s, run);
    WithTaskTwice(c, w, s, t, n, t.(pc := T.Finished), n);
    acts', c' := Extend(from, acts', c1, TaskStep(w, s, T.Write));
  }

  /** On its way to its first call. */
  lemma Calls(t: T.Task) returns (run: seq<T.Action>, t': T.Task)
    requires t.pc.Begin? && t.made == 0 && !T.Skipped(t)
    ensures R.Path(t, run, t') && t' == t.(pc := T.Calling(1)) && forall a <- run :: !a.Write?
  {
    run, t' := R.Then(t, [], t, T.Ask(true));
    if t.source.Court? {
      run, t' := R.Then(t, run, t', T.Grant);
    }
  }

  /** And the first answer is a good one. */
  lemma Answer(t0: T.Task, run0: seq<T.Action>, t: T.Task) returns (run: seq<T.Action>, t': T.Task)
    requires R.Path(t0, run0, t) && t.pc == T.Calling(1) && forall a <- run0 :: !a.Write?
    ensures R.Path(t0, run, t') && (forall a <- run :: !a.Write?)
    ensures t'.pc.Reporting? && t'.pc.row.status.Settled() && t'.made > t.made
  {
    run, t' := R.Then(t0, run0, t, T.Call(Ok(Some("found"))));
    if t.source.Scra? {
      run, t' := R.Then(t0, run, t', T.Tick);
      run, t' := R.Then(t0, run, t', T.Poll(T.SearchComplete("clear")));
    }
  }

  /** A run in which the source answers, or does not apply. */
  lemma Succeeds(t: T.Task) returns (run: seq<T.Action>, row: Row)
    requires t.pc.Begin? && t.made == 0
    ensures R.Legal(t, run) && (forall a <- run :: !a.Write?)
    ensures R.ExecAll(t, run).pc == T.Writing(row) && row.status.Settled()
    ensures row.attempts == t.base + R.Tally(run, T.IsCall)
    ensures !T.Skipped(t) ==> R.Tally(run, T.IsCall) >= 1
  {
    var t';
    if T.Skipped(t) {
      run, t' := R.Then(t, [], t, T.Skip);
    } else {
      run, t' := Calls(t);
      run, t' := Answer(t, run, t');
      run, t' := R.Then(t, run, t', T.Tell);
    }
    row := t'.pc.row;
    R.RunBooks(t, run);
  }

  // -------------------------------------------------------------------------
  // One source, then all of them
  // -------------------------------------------------------------------------

  function TaskAt(c: CaseState, w: nat, s: Source): Option<T.Task>
    requires w in c.workers && c.workers[w].phase.Working?
  {
    c.workers[w].phase.tasks.At(s)
  }

  predicate Works(c: CaseState, w: nat) {
    w in c.workers && c.workers[w].phase.Working? && c.run.Some?
  }

  /** The worker has a task that has not begun, or none and the row is settled. */
  predicate ReadyFor(c: CaseState, w: nat, s: Source) {
    && Works(c, w)
    && if TaskAt(c, w, s).Some? then Startable(c, w, s) else c.run.value.rows.At(s).status.Settled()
  }

  /** Only worker `w` has moved, and no trigger. */
  ghost predicate OnlyWorker(c: CaseState, c': CaseState, w: nat) {
    && c'.triggers == c.triggers && c'.hasCourt == c.hasCourt && c'.run.Some?
    && c'.workers.Keys == c.workers.Keys
    && forall v <- c.workers :: v != w ==> c'.workers[v] == c.workers[v]
  }

  /** The row of `s` is settled, charged with the calls this worker has made for it. */
  predicate Answered(c: CaseState, c': CaseState, w: nat, s: Source)
    requires Works(c, w) && c'.run.Some?
  {
    && c'.run.value.rows.At(s).status.Settled()
    && c'.calls.At(s) >= c.calls.At(s)
    && match TaskAt(c, w, s)
       case None => c'.run.value.rows.At(s) == c.run.value.rows.At(s) && c'.calls.At(s) == c.calls.At(s)
       case Some(t) =>
         && c'.run.value.rows.At(s).attempts == t.base + (c'.calls.At(s) - c.calls.At(s))
         && (!T.Skipped(t) ==> c'.calls.At(s) > c.calls.At(s))
  }

  /** Nothing has happened for `u`. */
  predicate Unmoved(c: CaseState, c': CaseState, w: nat, u: Source)
    requires Works(c, w) && Works(c', w)
  {
    && TaskAt(c', w, u) == TaskAt(c, w, u)
    && c'.run.value.rows.At(u) == c.run.value.rows.At(u) && c'.calls.At(u) == c.calls.At(u)
  }

  lemma SettleOne(from: CaseState, acts: seq<Action>, c: CaseState, w: nat, s: Source)
    returns (acts': seq<Action>, c': CaseState)
    requires Onward(from, acts, c) && ReadyFor(c, w, s)
    ensures Onward(from, acts', c') && Works(c', w) && OnlyWorker(c, c', w)
    ensures Done(TaskAt(c', w, s)) && Answered(c, c', w, s)
    ensures forall u: Source :: u != s ==> Unmoved(c, c', w, u)
  {
    if TaskAt(c, w, s).None? {
      acts', c' := acts, c;
    } else {
      var run, row := Succeeds(TaskOf(c, w, s));
      acts', c' := FinishTask(from, acts, c, w, s, run, row);
    }
  }

  ghost predicate Ready(c: CaseState, w: nat) {
    forall s: Source :: ReadyFor(c, w, s)
  }

  /** The worker has nothing left to do, and what it did. */
  ghost predicate Settled(c: CaseState, c': CaseState, w: nat)
    requires Works(c, w)
  {
    && Works(c', w) && OnlyWorker(c, c', w)
    && forall s: Source :: Done(TaskAt(c', w, s)) && Answered(c, c', w, s)
  }

  lemma AnsweredKept(c: CaseState, c1: CaseState, c2: CaseState, w: nat, s: Source)
    requires Works(c, w) && Works(c1, w) && Works(c2, w)
    requires Answered(c, c1, w, s) && Done(TaskAt(c1, w, s)) && Unmoved(c1, c2, w, s)
    ensures Answered(c, c2, w, s) && Done(TaskAt(c2, w, s))
  {}

  lemma AnsweredLater(c: CaseState, c1: CaseState, c2: CaseState, w: nat, s: Source)
    requires Works(c, w) && Works(c1, w) && Works(c2, w)
    requires Unmoved(c, c1, w, s) && Answered(c1, c2, w, s)
    ensures Answered(c, c2, w, s)
  {}

  lemma ReadyKept(c: CaseState, c1: CaseState, w: nat, s: Source)
    requires ReadyFor(c, w, s) && Works(c1, w) && Unmoved(c, c1, w, s)
    ensures ReadyFor(c1, w, s)
  {}

  lemma SettleAll(c: CaseState, w: nat) returns (acts: seq<Action>, c': CaseState)
    requires Works(c, w) && Ready(c, w)
    ensures Onward(c, acts, c') && Settled(c, c', w)
  {
    Stay(c);
    assert ReadyFor(c, w, Court) && ReadyFor(c, w, Property) && ReadyFor(c, w, Scra);
    var c1, c2;
    acts, c1 := SettleOne(c, [], c, w, Court);
    ReadyKept(c, c1, w, Property);
    ReadyKept(c, c1, w, Scra);
    acts, c2 := SettleOne(c, acts, c1, w, Property);
    AnsweredKept(c, c1, c2, w, Court);
    AnsweredLater(c, c1, c2, w, Property);
    ReadyKept(c1, c2, w, Scra);
    assert Unmoved(c, c2, w, Scra);
    acts, c' := SettleOne(c, acts, c2, w, Scra);
    AnsweredKept(c, c2, c', w, Court);
    AnsweredKept(c, c2, c', w, Property);
    AnsweredLater(c, c2, c', w, Scra);
  }

  predicate AllSettled(rows: Rows) {
    rows.court.status.Settled() && rows.property.status.Settled() && rows.scra.status.Settled()
  }

  /** The run is complete, by this worker, which is gone. */
  ghost predicate CompletedBy(c: CaseState, c': CaseState, w: nat)
    requires Works(c, w)
  {
    && OnlyWorker(c, c', w) && w in c'.workers && !Live(c'.workers[w])
    && c'.run.value.status.Complete? && AllSettled(c'.run.value.rows)
    && forall s: Source :: Answered(c, c', w, s)
  }

  lemma Close(c: CaseState, w: nat) returns (acts: seq<Action>)
    requires Works(c, w) && AllDone(c.workers[w].phase.tasks) && AllSettled(c.run.value.rows)
    ensures Onward(c, acts, WithRun(WithPhase(c, w, Exited), SetStatus(c.run.value, Complete)))
  {
    Stay(c);
    var c';
    acts, c' := Extend(c, [], c, Collect(w));
    assert c' == WithPhase(c, w, Summing(Complete));
    acts, c' := Extend(c, acts, c', Finish(w));
    assert c' == WithRun(WithPhase(c, w, Exited), SetStatus(c.run.value, Complete));
  }

  lemma Completes(c: CaseState, w: nat) returns (acts: seq<Action>, c': CaseState)
    requires Works(c, w) && Ready(c, w)
    ensures Onward(c, acts, c') && CompletedBy(c, c', w)
  {
    var c1;
    acts, c1 := SettleAll(c, w);
    assert Answered(c, c1, w, Court) && Answered(c, c1, w, Property) && Answered(c, c1, w, Scra);
    var close := Close(c1, w);
    c' := WithRun(WithPhase(c1, w, Exited), SetStatus(c1.run.value, Complete));
    acts := Join(c, acts, c1, close, c');
    forall s: Source
      ensures Answered(c, c', w, s)
    {
      assert Answered(c, c1, w, s);
    }
  }

  /** A worker that has just been launched is ready once it has loaded its sources. */
  lemma LoadedIsReady(c: CaseState, w: nat)
    requires Enabled(c, Load(w))
    ensures Works(Exec(c, Load(w)), w) && Ready(Exec(c, Load(w)), w)
  {}
}

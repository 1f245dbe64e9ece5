/** Overlapping re-triggers do happen: for every case a run leads into one. */
module LookupOverlaps {
  import opened Types
  import opened LookupCase
  import opened LookupGuarantees
  import opened LookupModes
  import opened LookupRace
  import opened RetriggerSteps
  import opened WorkerRuns
  import R = TaskRuns
  import Retry
  import T = SourceTask

  lemma {:induction false} LegalApartAppend(c: CaseState, acts: seq<Action>, more: seq<Action>)
    requires Legal(c, acts) && LegalApart(c, acts) && LegalApart(ExecAll(c, acts), more)
    ensures LegalApart(c, acts + more)
    decreases |acts|
  {
    if acts == [] {
      assert acts + more == more;
    } else {
      assert (acts + more)[0] == acts[0] && (acts + more)[1..] == acts[1..] + more;
      LegalApartAppend(Exec(c, acts[0]), acts[1..], more);
    }
  }

  lemma ReachedMore(c: CaseState, more: seq<Action>, c': CaseState)
    requires Reached(c) && LegalApart(c, more) && Path(c, more, c')
    ensures Reached(c')
  {
    var acts :| ReachedBy(c, acts);
    var c0 := Untouched(c.hasCourt);
    LegalApartAppend(c0, acts, more);
    RunAppend(c0, acts, more);
    SameCourt(c, more);
    assert ReachedBy(c', acts + more);
  }

  lemma ReachedStep(c: CaseState, a: Action)
    requires Reached(c) && Enabled(c, a) && Apart(Exec(c, a))
    ensures Reached(Exec(c, a))
  {
    RunOne(c, a);
    assert [a][0] == a && [a][1..] == [];
    assert LegalApart(Exec(c, a), []);
    ReachedMore(c, [a], Exec(c, a));
  }

  lemma ReachedOnward(c: CaseState, acts: seq<Action>, c': CaseState)
    requires Reached(c) && Onward(c, acts, c')
    ensures Reached(c')
  {
    ReachedIsApart(c);
    OnwardStaysApart(c, acts);
    ReachedMore(c, acts, c');
  }

  /** A task whose one call fails for good. */
  lemma GivesUp(t: T.Task) returns (run: seq<T.Action>, row: Row)
    requires t.pc.Begin? && t.made == 0 && t.source.Property?
    ensures R.Legal(t, run) && (forall a <- run :: !a.Write?)
    ensures R.ExecAll(t, run).pc == T.Writing(row) && row.status.SFailed?
  {
    var t';
    run, t' := R.Then(t, [], t, T.Ask(true));
    run, t' := R.Then(t, run, t', T.Call(Retry.Permanent));
    run, t' := R.Then(t, run, t', T.Tell);
    row := t'.pc.row;
  }

  lemma FirstRead(hasCourt: bool)
    ensures Reached(Goto(Untouched(hasCourt), 0, NoRunSeen))
  {
    var c0 := Untouched(hasCourt);
    assert ReachedBy(c0, []);
    ReachedStep(c0, Arrive(0));
    var c1 := Goto(c0, 0, Arrived);
    ReachedStep(c1, ReadRun(0));
    assert Exec(c1, ReadRun(0)) == Goto(c0, 0, NoRunSeen);
  }

  /** The first call has launched its worker. */
  lemma FirstLaunch(hasCourt: bool) returns (c: CaseState)
    ensures Reached(c) && c.hasCourt == hasCourt && Enabled(c, Load(0))
    ensures c.run == Some(FreshRun(0)) && c.triggers == map[0 := LookupCase.Answered(202)]
  {
    FirstRead(hasCourt);
    var c0 := Goto(Untouched(hasCourt), 0, NoRunSeen);
    Stay(c0);
    var acts;
    acts, c := Extend(c0, [], c0, Create(0, 0));
    assert c == Moved(c0, 0, Launching(true), FreshRun(0));
    acts, c := Extend(c0, acts, c, Spawn(0, 0));
    ReachedOnward(c0, acts, c);
  }

  lemma OneFails(from: CaseState, acts: seq<Action>, c: CaseState) returns (acts': seq<Action>, c': CaseState)
    requires Onward(from, acts, c) && Works(c, 0) && Ready(c, 0) && TaskAt(c, 0, Property).Some?
    ensures Onward(from, acts', c') && Works(c', 0) && c'.triggers == c.triggers
    ensures ReadyFor(c', 0, Court) && ReadyFor(c', 0, Scra)
    ensures Done(TaskAt(c', 0, Property)) && StatusOf(c', Property).SFailed?
  {
    assert ReadyFor(c, 0, Property) && ReadyFor(c, 0, Court) && ReadyFor(c, 0, Scra);
    var run, row := GivesUp(TaskOf(c, 0, Property));
    acts', c' := FinishTask(from, acts, c, 0, Property, run, row);
  }

  lemma OthersSucceed(from: CaseState, acts: seq<Action>, c: CaseState) returns (acts': seq<Action>, c': CaseState)
    requires Onward(from, acts, c) && Works(c, 0) && ReadyFor(c, 0, Court) && ReadyFor(c, 0, Scra)
    requires Done(TaskAt(c, 0, Property)) && StatusOf(c, Property).SFailed?
    ensures Onward(from, acts', c') && Works(c', 0) && c'.triggers == c.triggers
    ensures AllDone(c'.workers[0].phase.tasks) && StatusOf(c', Property).SFailed?
  {
    var c1;
    acts', c1 := SettleOne(from, acts, c, 0, Court);
    assert Unmoved(c, c1, 0, Property) && Unmoved(c, c1, 0, Scra);
    acts', c' := SettleOne(from, acts', c1, 0, Scra);
    assert Unmoved(c1, c', 0, Property) && Unmoved(c1, c', 0, Court);
  }

  lemma RoundEnds(from: CaseState, acts: seq<Action>, c: CaseState) returns (acts': seq<Action>, c': CaseState)
    requires Onward(from, acts, c) && Works(c, 0)
    requires AllDone(c.workers[0].phase.tasks) && StatusOf(c, Property).SFailed?
    ensures Onward(from, acts', c') && c'.triggers == c.triggers && c'.run.Some?
    ensures c'.run.value.status.Partial? || c'.run.value.status.Failed?
  {
    OneUnsettled(c.run.value.rows, Property);
    var c1;
    acts', c1 := Extend(from, acts, c, Collect(0));
    acts', c' := Extend(from, acts', c1, Finish(0));
  }

  lemma FailedOnce(hasCourt: bool) returns (c: CaseState)
    ensures Reached(c) && c.run.Some? && (c.run.value.status.Partial? || c.run.value.status.Failed?)
    ensures c.hasCourt == hasCourt && c.triggers == map[0 := LookupCase.Answered(202)]
  {
    var c0 := FirstLaunch(hasCourt);
    Stay(c0);
    var acts;
    LoadedIsReady(c0, 0);
    acts, c := Extend(c0, [], c0, Load(0));
    assert TaskAt(c, 0, Property).Some?;
    acts, c := OneFails(c0, acts, c);
    acts, c := OthersSucceed(c0, acts, c);
    acts, c := RoundEnds(c0, acts, c);
    SameCourt(c0, acts);
    ReachedOnward(c0, acts, c);
  }

  /** Two calls arrive, and one of them reads the run. */
  lemma TwoCalls(c0: CaseState) returns (c: CaseState)
    requires Reached(c0) && c0.run.Some? && c0.triggers == map[0 := LookupCase.Answered(202)]
    ensures Reached(c) && c == Goto(Goto(Goto(c0, 1, Arrived), 2, Arrived), 1, RunSeen(c0.run.value.status))
  {
    Stay(c0);
    var acts, c1, c2;
    acts, c1 := Extend(c0, [], c0, Arrive(1));
    acts, c2 := Extend(c0, acts, c1, Arrive(2));
    ReachedOnward(c0, acts, c2);
    c := Goto(c2, 1, RunSeen(c0.run.value.status));
    assert forall t <- c.triggers :: t != 1 ==> !Retriggering(c.triggers[t]);
    ReachedStep(c2, ReadRun(1));
  }

  /** For every case there is a run without overlap that one more read of the run takes into
      an overlap: both calls arrive after a failed round and read before either resets. */
  lemma OverlapsHappen(hasCourt: bool) returns (c: CaseState, a: Action)
    ensures c.hasCourt == hasCourt && Reached(c) && Enabled(c, a) && !Apart(Exec(c, a))
    ensures CanMisreport(Exec(c, a)) && CanUndercharge(Exec(c, a))
  {
    var c0 := FailedOnce(hasCourt);
    c := TwoCalls(c0);
    a := ReadRun(2);
    var c' := Exec(c, a);
    assert Retriggering(c'.triggers[1]) && Retriggering(c'.triggers[2]);
    OverlapIsTheBreakingStep(c, a);
  }

  /** A run from the first call on, a step, and what follows it make one run. */
  lemma WholeRun(c: CaseState, before: seq<Action>, a: Action, after: seq<Action>, done: CaseState)
    returns (acts: seq<Action>)
    requires ReachedBy(c, before) && Enabled(c, a) && Onward(Exec(c, a), after, done)
    ensures Path(Untouched(c.hasCourt), acts, done)
  {
    var c0 := Untouched(c.hasCourt);
    RunOne(c, a);
    RunAppend(c0, before, [a]);
    acts := before + [a] + after;
    RunAppend(c0, before + [a], after);
  }

  /** So for every case some run from its first call on reaches a complete run whose status
      and rows agree, and one more store call of a slow re-trigger undoes a settled row. */
  lemma OverlapReopensCompleteRun(hasCourt: bool) returns (acts: seq<Action>, done: CaseState, late: Action)
    ensures Path(Untouched(hasCourt), acts, done) && ReopensComplete(done, late)
  {
    var c, a := OverlapsHappen(hasCourt);
    var before :| ReachedBy(c, before);
    var m := ReachedMode(c);
    ReachedIsApart(c);
    var after;
    after, done, late := OverlapReopens(c, m, a);
    acts := WholeRun(c, before, a, after, done);
  }
}

/** A crash of the process leaves the rows and nobody to work on them. */
module LookupRestart {
  import opened Types
  import opened LookupCase
  import opened RetriggerSteps
  import opened WorkerRuns
  import O = Orchestrator
  import TS = TriggerSteps

  /** Calls in progress and workers are gone; nothing in the program looks for what they
      were doing. */
  function Restarted(c: CaseState): CaseState {
    c.(triggers := map[], workers := map[])
  }

  predicate Pending(c: CaseState) {
    c.run.Some? && c.run.value.status.Pending?
  }

  // -------------------------------------------------------------------------
  // A pending run is stuck
  // -------------------------------------------------------------------------

  /** How far a call gets that finds a pending run. */
  predicate Turned(pc: Trigger) {
    pc.Arrived? || pc == RunSeen(RunStatus.Pending) || pc == LookupCase.Answered(200)
  }

  ghost predicate Stuck(c: CaseState) {
    Pending(c) && c.workers == map[] && forall t <- c.triggers :: Turned(c.triggers[t])
  }

  lemma {:induction false} StuckForever(c: CaseState, acts: seq<Action>)
    requires Stuck(c) && Legal(c, acts)
    ensures Stuck(ExecAll(c, acts)) && ExecAll(c, acts).run == c.run
    decreases |acts|
  {
    if acts != [] { StuckForever(Exec(c, acts[0]), acts[1..]); }
  }

  /** A run that was pending when the process died stays as it is for ever: whatever calls
      come, none launches a worker, and every one of them that answers answers 200. */
  lemma PendingIsLost(c: CaseState, acts: seq<Action>)
    requires Pending(c) && Legal(Restarted(c), acts)
    ensures var c' := ExecAll(Restarted(c), acts);
            && c'.run == c.run && c'.workers == map[]
            && forall t <- c'.triggers :: c'.triggers[t].Answered? ==> c'.triggers[t].code == 200
  {
    StuckForever(Restarted(c), acts);
  }

  // -------------------------------------------------------------------------
  // Any other is not
  // -------------------------------------------------------------------------

  ghost predicate CompleteAfter(c: CaseState, acts: seq<Action>, c': CaseState) {
    Path(c, acts, c') && c'.run.Some? && c'.run.value.status.Complete?
  }

  lemma WorkerFinishes(c: CaseState, w: nat) returns (acts: seq<Action>, c': CaseState)
    requires Enabled(c, Load(w))
    ensures CompleteAfter(c, acts, c')
  {
    Stay(c);
    var c1, work;
    acts, c1 := Extend(c, [], c, Load(w));
    LoadedIsReady(c, w);
    work, c' := Completes(c1, w);
    acts := Join(c, acts, c1, work, c');
  }

  lemma OneCallIsEnough(c: CaseState) returns (acts: seq<Action>, c': CaseState)
    requires !Pending(c)
    ensures CompleteAfter(Restarted(c), acts, c')
  {
    var c0 := Restarted(c);
    var call := TS.TriggerAlone(c0, 0, 0, 0);
    var c1 := TS.Served(c0, 0, 0, 0);
    if O.TriggerEffect(c0.run, 0).1.Launched? {
      var work;
      work, c' := WorkerFinishes(c1, 0);
      RunAppend(c0, call, work);
      acts := call + work;
    } else {
      acts, c' := call, c1;
    }
  }

  /** After a restart the case can still be brought to a complete run, if its services
      answer, if and only if its run was not pending. A crash in the middle of a reset does
      no harm, one between there and the end of the worker does. */
  lemma RecoverableIffNotPending(c: CaseState)
    ensures (exists acts, c' :: CompleteAfter(Restarted(c), acts, c')) <==> !Pending(c)
  {
    if Pending(c) {
      forall acts, c' | Path(Restarted(c), acts, c')
        ensures !CompleteAfter(Restarted(c), acts, c')
      {
        StuckForever(Restarted(c), acts);
      }
    } else {
      var acts, c' := OneCallIsEnough(c);
    }
  }
}

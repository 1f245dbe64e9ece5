/** A case takes boundedly many steps per trigger; with a token every goroutine that has not
    finished can move; and when no step is left, the run is not pending. */
module GatewayBudgets {
  import opened Types
  import opened Gateway
  import opened GatewayBounds
  import opened Sums
  import C = LookupCase
  import P = LookupProtocol
  import L = GatewayLiveness

  // -------------------------------------------------------------------------
  // Every case step but an arrival comes off a budget
  // -------------------------------------------------------------------------

  /** A bound on the steps still ahead of a trigger and of the worker it may launch. */
  function TriggerWeight(pc: C.Trigger): nat {
    match pc
    case Arrived => 252
    case RunSeen(_) => 251
    case Fetching => 250
    case Resetting(todo) => 246 + |todo|
    case SourcesReset => 246
    case RunReset => 245
    case NoRunSeen => 245
    case Launching(_) => 244
    case NothingToRetry => 1
    case Answered(_) => 0
  }

  ghost function TriggerWeights(triggers: map<nat, C.Trigger>): map<nat, nat> {
    map t | t in triggers :: TriggerWeight(triggers[t])
  }

  ghost function WorkerWeights(workers: map<nat, C.Worker>): map<nat, nat> {
    map w | w in workers :: L.WorkerWeight(workers[w])
  }

  ghost function CaseMeasure(c: C.CaseState): nat {
    Sum(TriggerWeights(c.triggers)) + Sum(WorkerWeights(c.workers))
  }

  lemma MoveTrigger(triggers: map<nat, C.Trigger>, t: nat, pc: C.Trigger)
    ensures Sum(TriggerWeights(triggers[t := pc]))
            == Sum(TriggerWeights(triggers)) + TriggerWeight(pc)
               - (if t in triggers then TriggerWeight(triggers[t]) else 0)
  {
    assert TriggerWeights(triggers[t := pc]) == TriggerWeights(triggers)[t := TriggerWeight(pc)];
    SumUpdate(TriggerWeights(triggers), t, TriggerWeight(pc));
  }

  lemma MoveWorker(workers: map<nat, C.Worker>, w: nat, x: C.Worker)
    ensures Sum(WorkerWeights(workers[w := x]))
            == Sum(WorkerWeights(workers)) + L.WorkerWeight(x)
               - (if w in workers then L.WorkerWeight(workers[w]) else 0)
  {
    assert WorkerWeights(workers[w := x]) == WorkerWeights(workers)[w := L.WorkerWeight(x)];
    SumUpdate(WorkerWeights(workers), w, L.WorkerWeight(x));
  }

  /** What a trigger's own step costs it; a launch hands 243 over to the worker. */
  lemma TriggerStepWeight(c: C.CaseState, a: C.Action, t: nat)
    requires P.Shape(c) && C.Enabled(c, a) && P.TriggerIn(a) == Some(t)
    ensures t in C.Exec(c, a).triggers
    ensures TriggerWeight(C.Exec(c, a).triggers[t]) + (if a.Spawn? then 243 else 0) + 1
            <= if a.Arrive? then 253 else if t in c.triggers then TriggerWeight(c.triggers[t]) else 0
  {}

  lemma TriggerStepDecreases(c: C.CaseState, a: C.Action)
    requires P.Shape(c) && C.Enabled(c, a) && P.TriggerIn(a).Some?
    ensures CaseMeasure(C.Exec(c, a)) + 1 <= CaseMeasure(c) + if a.Arrive? then 253 else 0
  {
    var c' := C.Exec(c, a);
    var t := P.TriggerIn(a).value;
    TriggerStepWeight(c, a, t);
    P.WorkersAfter(c, a);
    MoveTrigger(c.triggers, t, c'.triggers[t]);
    if a.Spawn? {
      MoveWorker(c.workers, a.w, c'.workers[a.w]);
    } else {
      assert c'.workers == c.workers;
    }
  }

  lemma WorkerStepDecreases(c: C.CaseState, a: C.Action)
    requires P.Shape(c) && C.Enabled(c, a) && P.TriggerIn(a).None?
    ensures CaseMeasure(C.Exec(c, a)) + 1 <= CaseMeasure(c)
  {
    var c' := C.Exec(c, a);
    L.WorkerStep(c, a, a.w);
    OnlyItsWorker(c, a);
    MoveWorker(c.workers, a.w, c'.workers[a.w]);
  }

  lemma OnlyItsWorker(c: C.CaseState, a: C.Action)
    requires C.Enabled(c, a) && P.TriggerIn(a).None?
    ensures var c' := C.Exec(c, a);
            && c'.triggers == c.triggers && a.w in c.workers && a.w in c'.workers
            && c'.workers == c.workers[a.w := c'.workers[a.w]]
  {}

  lemma CaseStepDecreases(c: C.CaseState, a: C.Action)
    requires P.Shape(c) && C.Enabled(c, a)
    ensures CaseMeasure(C.Exec(c, a)) + 1 <= CaseMeasure(c) + if a.Arrive? then 253 else 0
  {
    if P.TriggerIn(a).Some? { TriggerStepDecreases(c, a); } else { WorkerStepDecreases(c, a); }
  }

  ghost function Arrivals(acts: seq<C.Action>): nat {
    if acts == [] then 0 else (if acts[0].Arrive? then 1 else 0) + Arrivals(acts[1..])
  }

  lemma {:induction false} StepsFromBudget(c: C.CaseState, acts: seq<C.Action>)
    requires P.Shape(c) && C.Legal(c, acts)
    ensures |acts| + CaseMeasure(C.ExecAll(c, acts)) <= CaseMeasure(c) + 253 * Arrivals(acts)
    decreases |acts|
  {
    if acts != [] {
      CaseStepDecreases(c, acts[0]);
      P.ShapeStep(c, acts[0]);
      StepsFromBudget(C.Exec(c, acts[0]), acts[1..]);
    }
  }

  /** In the whole gateway, whatever else it does and however triggers overlap, a case takes
      at most 253 steps per call of `TriggerLookup`: stores, clients, breakers, limiter and
      ticks of all its workers included. */
  lemma CaseStepsBounded(courts: map<CaseId, bool>, acts: seq<Action>, id: CaseId)
    requires Legal(Started(courts), acts) && id in courts
    ensures |CaseRun(acts, id)| <= 253 * Arrivals(CaseRun(acts, id))
  {
    var c := C.Untouched(courts[id]);
    CaseProjection(Started(courts), acts, id);
    assert Started(courts).cases[id] == c;
    P.UntouchedUnrestricted(courts[id]);
    StepsFromBudget(c, CaseRun(acts, id));
    assert TriggerWeights(c.triggers) == map[] && WorkerWeights(c.workers) == map[];
  }

  // -------------------------------------------------------------------------
  // When no step is left, nothing is pending
  // -------------------------------------------------------------------------

  /** A goroutine of a case: a call in progress, or a worker with its tasks. */
  datatype Goroutine = Call(t: nat) | Work(w: nat)

  predicate Own(a: C.Action, who: Goroutine) {
    match who
    case Call(t) => P.TriggerIn(a) == Some(t) && !a.Arrive?
    case Work(w) => L.StepOf(a, w)
  }

  predicate Unfinished(c: C.CaseState, who: Goroutine) {
    match who
    case Call(t) => t in c.triggers && !c.triggers[t].Answered?
    case Work(w) => w in c.workers && C.Live(c.workers[w])
  }

  /** A state that a run can stand in, as far as case `id` is concerned. */
  ghost predicate Sane(g: Gateway, id: CaseId) {
    Inv(g) && id in g.cases
  }

  /** None of its steps is possible. */
  ghost predicate Stalled(g: Gateway, id: CaseId, who: Goroutine) {
    forall a: C.Action :: Enabled(g, CaseStep(id, a)) ==> !Own(a, who)
  }

  /** The next step of a call that has not answered yet. */
  function NextOf(c: C.CaseState, t: nat, w: nat): C.Action
    requires t in c.triggers
  {
    match c.triggers[t]
    case Arrived => C.ReadRun(t)
    case NoRunSeen => C.Create(t, 0)
    case RunSeen(_) => C.ReadSources(t)
    case Fetching => C.GetRetryable(t)
    case NothingToRetry => C.CompleteAnyway(t)
    case Resetting(_) => C.ResetSource(t)
    case SourcesReset => C.ResetRun(t)
    case RunReset => C.Reload(t)
    case Launching(_) => C.Spawn(t, w)
    case Answered(_) => C.Arrive(t)
  }

  lemma CallMoves(g: Gateway, id: CaseId, t: nat)
    requires id in g.cases && P.Shape(g.cases[id]) && Unfinished(g.cases[id], Call(t))
    ensures !Stalled(g, id, Call(t))
  {
    var w := C.Unused(g.cases[id].workers.Keys);
    var a := NextOf(g.cases[id], t, w);
    assert Enabled(g, CaseStep(id, a)) && Own(a, Call(t));
  }

  /** A goroutine that has not finished can move as soon as there is a token. */
  lemma UnfinishedMoves(g: Gateway, id: CaseId, who: Goroutine)
    requires Sane(g, id) && Unfinished(g.cases[id], who) && g.limiter.bucket > 0
    ensures !Stalled(g, id, who)
  {
    assert P.Unrestricted(g.cases[id]);
    match who
    case Call(t) => CallMoves(g, id, t);
    case Work(w) =>
      var a := L.NextAction(g, id, w);
      assert Own(a, who);
  }

  ghost predicate Dead(c: C.CaseState) {
    && (forall t <- c.triggers :: c.triggers[t].Answered?)
    && (forall w <- c.workers :: !C.Live(c.workers[w]))
  }

  predicate NotPending(c: C.CaseState) {
    c.run.Some? ==> !c.run.value.status.Pending?
  }

  /** A case that is not dead has somebody left. */
  lemma SomebodyLeft(c: C.CaseState) returns (who: Goroutine)
    requires !Dead(c)
    ensures Unfinished(c, who)
  {
    if t :| t in c.triggers && !c.triggers[t].Answered? {
      who := Call(t);
    } else {
      var w :| w in c.workers && C.Live(c.workers[w]);
      who := Work(w);
    }
  }

  lemma DeadIsNotPending(c: C.CaseState)
    requires P.PendingOwned(c) && Dead(c)
    ensures NotPending(c)
  {}

  /** Nothing can happen in the case unless a new call arrives. */
  ghost predicate Quiescent(g: Gateway, id: CaseId) {
    forall a: C.Action :: Enabled(g, CaseStep(id, a)) ==> a.Arrive?
  }

  /** With a token in the bucket, a case in which nothing can happen has answered every call
      and finished every worker, and its run is not pending. */
  lemma QuiescentIsDead(g: Gateway, id: CaseId)
    requires Sane(g, id) && g.limiter.bucket > 0 && Quiescent(g, id)
    ensures Dead(g.cases[id]) && NotPending(g.cases[id])
  {
    assert P.Unrestricted(g.cases[id]);
    if !Dead(g.cases[id]) {
      var who := SomebodyLeft(g.cases[id]);
      UnfinishedMoves(g, id, who);
    }
    DeadIsNotPending(g.cases[id]);
  }

  lemma DeadHasNoSteps(c: C.CaseState, a: C.Action)
    requires Dead(c) && C.Enabled(c, a)
    ensures a.Arrive?
  {}

  /** Taking tokens and steps of the case as long as there are any. */
  lemma {:induction false} RunsOut(g0: Gateway, acts: seq<Action>, g: Gateway, id: CaseId)
    returns (acts': seq<Action>, g': Gateway)
    requires Path(g0, acts, g) && Sane(g, id)
    ensures acts <= acts'
    ensures Path(g0, acts', g') && Sane(g', id) && g'.limiter.bucket > 0 && Quiescent(g', id)
    decreases CaseMeasure(g.cases[id])
  {
    acts', g' := L.TokenArrives(g0, acts, g);
    if !Quiescent(g', id) {
      acts', g' := OneStepOn(g0, acts', g', id);
      acts', g' := RunsOut(g0, acts', g', id);
    }
  }

  lemma OneStepOn(g0: Gateway, acts: seq<Action>, g: Gateway, id: CaseId)
    returns (acts': seq<Action>, g': Gateway)
    requires Path(g0, acts, g) && Sane(g, id) && !Quiescent(g, id)
    ensures acts <= acts' && Path(g0, acts', g') && Sane(g', id)
    ensures CaseMeasure(g'.cases[id]) < CaseMeasure(g.cases[id])
  {
    var a: C.Action :| Enabled(g, CaseStep(id, a)) && !a.Arrive?;
    assert P.Unrestricted(g.cases[id]);
    CaseStepDecreases(g.cases[id], a);
    InvStep(g, CaseStep(id, a));
    acts', g' := Then(g0, acts, g, CaseStep(id, a));
  }

  /** However triggers overlapped so far, every pending run can still be completed. */
  lemma PendingRunsComplete(courts: map<CaseId, bool>, acts: seq<Action>, id: CaseId)
    requires Legal(Started(courts), acts) && id in courts
    ensures exists more ::
      && Legal(ExecAll(Started(courts), acts), more)
      && var g' := ExecAll(ExecAll(Started(courts), acts), more);
         id in g'.cases && Dead(g'.cases[id]) && NotPending(g'.cases[id])
  {
    var g0 := Started(courts);
    StartedInv(courts);
    InvAlways(g0, acts);
    CaseProjection(g0, acts, id);
    var g := ExecAll(g0, acts);
    var more, g' := RunsOut(g, [], g, id);
    QuiescentIsDead(g', id);
  }
}

/** Every launched worker ends, whatever the services answer: its steps are bounded, with a
    token in the bucket it can always take the next one, and the next tick brings a token. */
module GatewayLiveness {
  import opened Types
  import opened Gateway
  import opened GatewayBounds
  import C = LookupCase
  import P = LookupProtocol
  import T = SourceTask
  import CB = CircuitBreaker
  import RL = RateLimiter
  import Retry

  function TaskMeasure(t: Option<T.Task>): nat {
    if t.None? then 0 else T.Measure(t.value)
  }

  /** A bound on the steps a worker still takes. */
  function WorkerWeight(w: C.Worker): nat {
    match w.phase
    case Loading => 243
    case Working(tasks) => 2 + TaskMeasure(tasks.court) + TaskMeasure(tasks.property) + TaskMeasure(tasks.scra)
    case Summing(_) => 1
    case Exited => 0
  }

  function WorkerMeasure(c: C.CaseState, w: nat): nat
    requires w in c.workers
  {
    WorkerWeight(c.workers[w])
  }

  predicate StepOf(a: C.Action, w: nat) {
    (a.Load? || a.TaskStep? || a.Collect? || a.Finish?) && a.w == w
  }

  lemma OwnTaskStep(c: C.CaseState, w: nat, s: Source, ta: T.Action)
    requires P.Shape(c) && C.Enabled(c, C.TaskStep(w, s, ta))
    ensures WorkerMeasure(C.Exec(c, C.TaskStep(w, s, ta)), w) < WorkerMeasure(c, w)
  {
    var before := c.workers[w].phase.tasks;
    var after := before.With(s, Some(T.Exec(C.TaskOf(c, w, s), ta)));
    P.TaskStepKeepsWorkers(c, w, s, ta);
    T.StepDecreases(C.TaskOf(c, w, s), ta);
    assert C.Exec(c, C.TaskStep(w, s, ta)).workers[w].phase.tasks == after;
  }

  lemma WorkerStep(c: C.CaseState, a: C.Action, w: nat)
    requires P.Shape(c) && C.Enabled(c, a) && w in c.workers
    ensures w in C.Exec(c, a).workers
    ensures StepOf(a, w) ==> WorkerMeasure(C.Exec(c, a), w) < WorkerMeasure(c, w)
    ensures !StepOf(a, w) ==> C.Exec(c, a).workers[w] == c.workers[w]
  {
    if a.TaskStep? && a.w == w { OwnTaskStep(c, w, a.source, a.a); }
  }

  lemma GatewayWorkerStep(g: Gateway, a: Action, id: CaseId, w: nat)
    requires id in g.cases && P.Shape(g.cases[id]) && w in g.cases[id].workers && Enabled(g, a)
    ensures var g' := Exec(g, a);
            && id in g'.cases && w in g'.cases[id].workers
            && WorkerMeasure(g'.cases[id], w) + T.Indicator(a.CaseStep? && a.id == id && StepOf(a.a, w))
               <= WorkerMeasure(g.cases[id], w)
  {
    if a.CaseStep? && a.id == id { WorkerStep(g.cases[id], a.a, w); }
  }

  ghost function StepsOf(acts: seq<Action>, id: CaseId, w: nat): nat {
    if acts == [] then 0
    else T.Indicator(acts[0].CaseStep? && acts[0].id == id && StepOf(acts[0].a, w)) + StepsOf(acts[1..], id, w)
  }

  /** Whatever else happens in the gateway, a worker takes at most 243 steps. */
  lemma {:induction false} WorkerStepsBounded(g: Gateway, acts: seq<Action>, id: CaseId, w: nat)
    requires Inv(g) && Legal(g, acts) && id in g.cases && w in g.cases[id].workers
    ensures id in ExecAll(g, acts).cases && w in ExecAll(g, acts).cases[id].workers
    ensures StepsOf(acts, id, w) + WorkerMeasure(ExecAll(g, acts).cases[id], w) <= WorkerMeasure(g.cases[id], w)
    decreases |acts|
  {
    if acts != [] {
      InvStep(g, acts[0]);
      assert P.Unrestricted(g.cases[id]);
      GatewayWorkerStep(g, acts[0], id, w);
      WorkerStepsBounded(Exec(g, acts[0]), acts[1..], id, w);
    }
  }

  // -------------------------------------------------------------------------
  // Nothing blocks a worker for good
  // -------------------------------------------------------------------------

  /** Ticks bring a token: at most a firing, a receive and a deposit. */
  lemma TokenArrives(g: Gateway, acts: seq<Action>, g1: Gateway) returns (acts': seq<Action>, g2: Gateway)
    requires Path(g, acts, g1) && Inv(g1)
    ensures Path(g, acts', g2) && Inv(g2) && acts <= acts' && g2.cases == g1.cases && g2.limiter.bucket > 0
  {
    acts', g2 := acts, g1;
    if g1.limiter.bucket == 0 {
      if !g2.limiter.holding {
        if !g2.limiter.pending {
          acts', g2 := Then(g, acts', g2, Limit(RL.Fire));
        }
        acts', g2 := Then(g, acts', g2, Limit(RL.Take));
      }
      acts', g2 := Then(g, acts', g2, Limit(RL.Deposit));
    }
  }

  /** The move an unfinished task can make, given what the breaker would answer. */
  function Move(t: T.Task, admitted: bool): T.Action {
    match t.pc
    case Begin => if T.Skipped(t) then T.Skip else T.Ask(admitted)
    case AwaitToken => T.Grant
    case Calling(_) => T.Call(Retry.Transient)
    case Sleeping(_) => T.Wake
    case Polling(left, _, _) => if left > 0 then T.Tick else T.Expire
    case Reporting(_, _) => T.Tell
    case Writing(_) => T.Write
    case Finished => T.Write
  }

  lemma MoveFits(t: T.Task, admitted: bool)
    requires T.TaskInv(t) && !t.pc.Finished?
    ensures T.Enabled(t, Move(t, admitted))
  {}

  /** The shared objects never refuse that move. */
  lemma MoveShared(g: Gateway, who: Caller, s: Source, t: T.Task)
    requires T.TaskInv(t) && !t.pc.Finished? && g.limiter.bucket > 0
    requires who in g.ledgers.At(s).inFlight <==> T.InFlight(t)
    ensures var ta := Move(t, CB.Admits(g.ledgers.At(s).b, g.ledgers.At(s).now));
            T.Enabled(t, ta) && SharedEnabled(g, who, s, t, ta)
  {}

  lemma MoveEnabled(g: Gateway, id: CaseId, w: nat, s: Source)
    requires BooksAgree(g) && id in g.cases && P.Shape(g.cases[id]) && C.HasTask(g.cases[id], w, s)
    requires !C.TaskOf(g.cases[id], w, s).pc.Finished? && g.limiter.bucket > 0
    ensures var l := g.ledgers.At(s);
            var ta := Move(C.TaskOf(g.cases[id], w, s), CB.Admits(l.b, l.now));
            Enabled(g, CaseStep(id, C.TaskStep(w, s, ta)))
  {
    var c := g.cases[id];
    var t := C.TaskOf(c, w, s);
    assert P.WorkerFits(c, c.workers[w]);
    assert P.TaskFits(c, c.workers[w].phase.tasks.At(s), s);
    assert Caller(id, w) in g.ledgers.At(s).inFlight <==> FliesIn(g, Caller(id, w), s);
    MoveFits(t, CB.Admits(g.ledgers.At(s).b, g.ledgers.At(s).now));
    MoveShared(g, Caller(id, w), s, t);
  }

  lemma NextAction(g: Gateway, id: CaseId, w: nat) returns (ca: C.Action)
    requires BooksAgree(g) && id in g.cases && P.Shape(g.cases[id]) && g.limiter.bucket > 0
    requires w in g.cases[id].workers && C.Live(g.cases[id].workers[w])
    ensures Enabled(g, CaseStep(id, ca)) && StepOf(ca, w)
  {
    var c := g.cases[id];
    match c.workers[w].phase {
      case Loading => ca := C.Load(w);
      case Summing(_) => ca := C.Finish(w);
      case Working(tasks) =>
        if C.AllDone(tasks) {
          ca := C.Collect(w);
        } else {
          var s: Source := if !C.Done(tasks.court) then Court else if !C.Done(tasks.property) then Property else Scra;
          MoveEnabled(g, id, w, s);
          var l := g.ledgers.At(s);
          ca := C.TaskStep(w, s, Move(C.TaskOf(c, w, s), CB.Admits(l.b, l.now)));
        }
    }
  }
}

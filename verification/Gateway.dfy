/** The whole enrichment engine: every case, its triggers and workers, over the three
    shared breakers and the shared court limiter. */
module Gateway {
  import opened Types
  import C = LookupCase
  import P = LookupProtocol
  import T = SourceTask
  import CB = CircuitBreaker
  import RL = RateLimiter
  import Retry

  /** `searches` counts court `Search` calls; `charged` attributes them to the callers that
      took a limiter token. */
  datatype Gateway = Gateway(
    cases: map<CaseId, C.CaseState>,
    ledgers: PerSource<CB.Ledger>,
    limiter: RL.Limiter,
    searches: nat,
    charged: map<Caller, nat>)

  const MAX_FAILURES := 5
  const COOLDOWN := 30 * Retry.SECOND

  /** The wiring of `main`: `courts` says which cases exist and have a court number. */
  function Started(courts: map<CaseId, bool>): Gateway {
    var cb := CB.FreshLedger(MAX_FAILURES, COOLDOWN);
    Gateway(map id | id in courts :: C.Untouched(courts[id]), PerSource(cb, cb, cb), RL.FRESH, 0, map[])
  }

  datatype Action =
    | CaseStep(id: CaseId, a: C.Action)
    | Elapse(d: nat)
    | Health(s: Source)        // GET /api/health asks one breaker after the other for its state
    | Limit(e: RL.Event)       // ticker and refill goroutine

  /** What a task step does to the breaker of its source. */
  function BreakerEvent(who: Caller, t: T.Task, ta: T.Action): Option<CB.Event>
    requires T.Enabled(t, ta)
  {
    match ta
    case Ask(ok) => Some(CB.Ask(who, ok))
    case Tell => Some(CB.Report(who, t.pc.ok))
    case Expire => Some(CB.Abandon(who))
    case _ => None
  }

  predicate SharedEnabled(g: Gateway, who: Caller, s: Source, t: T.Task, ta: T.Action)
    requires T.Enabled(t, ta)
  {
    && (BreakerEvent(who, t, ta).Some? ==> CB.Possible(g.ledgers.At(s), BreakerEvent(who, t, ta).value))
    && (ta.Grant? ==> RL.Possible(g.limiter, RL.Grant))
  }

  predicate Enabled(g: Gateway, a: Action) {
    match a
    case CaseStep(id, ca) =>
      && id in g.cases && C.Enabled(g.cases[id], ca)
      && (ca.TaskStep? ==>
            SharedEnabled(g, Caller(id, ca.w), ca.source, C.TaskOf(g.cases[id], ca.w, ca.source), ca.a))
    case Elapse(_) => true
    case Health(_) => true
    // nothing in the program stops the limiter, and tokens are taken by tasks
    case Limit(e) => !e.Grant? && !e.Stop? && RL.Possible(g.limiter, e)
  }

  function ChargeOf(g: Gateway, who: Caller): nat {
    if who in g.charged then g.charged[who] else 0
  }

  function SharedExec(g: Gateway, who: Caller, s: Source, t: T.Task, ta: T.Action): Gateway
    requires T.Enabled(t, ta)
  {
    if BreakerEvent(who, t, ta).Some? then
      g.(ledgers := g.ledgers.With(s, CB.Next(g.ledgers.At(s), BreakerEvent(who, t, ta).value)))
    else if ta.Grant? then
      g.(limiter := RL.Next(g.limiter, RL.Grant), charged := g.charged[who := 0])
    else if ta.Call? && s.Court? then
      g.(searches := g.searches + 1, charged := g.charged[who := ChargeOf(g, who) + 1])
    else g
  }

  /** Time passes for every breaker. */
  function Later(ls: PerSource<CB.Ledger>, d: nat): PerSource<CB.Ledger> {
    PerSource(CB.Next(ls.court, CB.Elapse(d)), CB.Next(ls.property, CB.Elapse(d)), CB.Next(ls.scra, CB.Elapse(d)))
  }

  function Exec(g: Gateway, a: Action): Gateway
    requires Enabled(g, a)
  {
    match a
    case CaseStep(id, ca) =>
      var g' := if ca.TaskStep?
                then SharedExec(g, Caller(id, ca.w), ca.source, C.TaskOf(g.cases[id], ca.w, ca.source), ca.a)
                else g;
      g'.(cases := g.cases[id := C.Exec(g.cases[id], ca)])
    case Elapse(d) => g.(ledgers := Later(g.ledgers, d))
    case Health(s) => g.(ledgers := g.ledgers.With(s, CB.Next(g.ledgers.At(s), CB.Inspect)))
    case Limit(e) => g.(limiter := RL.Next(g.limiter, e))
  }

  /** Time, health queries, ticks and calls come as they like, and a task may do whatever
      its services answer; only the breakers and the limiter have a say. */
  lemma EnvironmentIsFree(g: Gateway, id: CaseId, a: C.Action, d: nat, s: Source)
    ensures Enabled(g, Elapse(d)) && Enabled(g, Health(s))
    ensures !g.limiter.stopped ==> Enabled(g, Limit(RL.Fire))
    ensures id in g.cases && C.Enabled(g.cases[id], a) && !a.TaskStep? ==> Enabled(g, CaseStep(id, a))
    ensures id in g.cases && C.Enabled(g.cases[id], a) && a.TaskStep? ==>
              var l := g.ledgers.At(a.source);
              Enabled(g, CaseStep(id, a)) <==>
              && (a.a.Ask? ==> Caller(id, a.w) !in l.inFlight && a.a.ok == CB.Admits(l.b, l.now))
              && (a.a.Tell? || a.a.Expire? ==> Caller(id, a.w) in l.inFlight)
              && (a.a.Grant? ==> g.limiter.bucket > 0)
  {}

  ghost predicate Legal(g: Gateway, acts: seq<Action>)
    decreases |acts|
  {
    acts == [] || (Enabled(g, acts[0]) && Legal(Exec(g, acts[0]), acts[1..]))
  }

  ghost function ExecAll(g: Gateway, acts: seq<Action>): Gateway
    requires Legal(g, acts)
    decreases |acts|
  {
    if acts == [] then g else ExecAll(Exec(g, acts[0]), acts[1..])
  }

  lemma {:induction false} Append(g: Gateway, acts: seq<Action>, more: seq<Action>)
    requires Legal(g, acts) && Legal(ExecAll(g, acts), more)
    ensures Legal(g, acts + more) && ExecAll(g, acts + more) == ExecAll(ExecAll(g, acts), more)
    decreases |acts|
  {
    if acts == [] {
      assert acts + more == more;
    } else {
      assert (acts + more)[0] == acts[0] && (acts + more)[1..] == acts[1..] + more;
      Append(Exec(g, acts[0]), acts[1..], more);
    }
  }

  /** `acts` leads from `g` to `g'`. */
  ghost predicate Path(g: Gateway, acts: seq<Action>, g': Gateway) {
    Legal(g, acts) && ExecAll(g, acts) == g'
  }

  lemma Then(g: Gateway, acts: seq<Action>, g1: Gateway, a: Action) returns (acts': seq<Action>, g2: Gateway)
    requires Path(g, acts, g1) && Enabled(g1, a)
    ensures Path(g, acts', g2) && g2 == Exec(g1, a) && acts' == acts + [a]
  {
    acts', g2 := acts + [a], Exec(g1, a);
    assert [a][0] == a && [a][1..] == [];
    assert Legal(g2, []) && ExecAll(g2, []) == g2;
    Append(g, acts, [a]);
  }

  // -------------------------------------------------------------------------
  // The breakers' books agree with the goroutines
  // -------------------------------------------------------------------------

  /** The task holds an admission it has neither reported nor abandoned. */
  predicate Flying(c: C.CaseState, w: nat, s: Source) {
    C.HasTask(c, w, s) && T.InFlight(C.TaskOf(c, w, s))
  }

  ghost predicate FliesIn(g: Gateway, who: Caller, s: Source) {
    who.caseId in g.cases && Flying(g.cases[who.caseId], who.worker, s)
  }

  ghost predicate BooksAgree(g: Gateway) {
    forall who: Caller, s: Source :: who in g.ledgers.At(s).inFlight <==> FliesIn(g, who, s)
  }

  lemma FlyingStep(c: C.CaseState, a: C.Action)
    requires C.Enabled(c, a)
    ensures forall w, s: Source | !(a.TaskStep? && w == a.w && s == a.source) ::
              Flying(C.Exec(c, a), w, s) == Flying(c, w, s)
  {
    var c' := C.Exec(c, a);
    if a.TaskStep? { P.TaskStepEffect(c, a.w, a.source, a.a); }
    forall w, s: Source | !(a.TaskStep? && w == a.w && s == a.source)
      ensures Flying(c', w, s) == Flying(c, w, s)
    {
      if a.Collect? && w == a.w && C.HasTask(c, w, s) {
        assert C.Done(c.workers[w].phase.tasks.At(s));
      }
    }
  }

  /** The shared half of a task step moves only its caller in and out of flight. */
  lemma SharedFlight(g: Gateway, who: Caller, s: Source, t: T.Task, ta: T.Action)
    requires T.Enabled(t, ta) && SharedEnabled(g, who, s, t, ta)
    requires who in g.ledgers.At(s).inFlight <==> T.InFlight(t)
    ensures var g' := SharedExec(g, who, s, t, ta);
            && (who in g'.ledgers.At(s).inFlight <==> T.InFlight(T.Exec(t, ta)))
            && forall x: Caller, u: Source :: (x, u) != (who, s) ==>
                 (x in g'.ledgers.At(u).inFlight <==> x in g.ledgers.At(u).inFlight)
  {}

  lemma BooksAgreeTask(g: Gateway, id: CaseId, a: C.Action)
    requires BooksAgree(g) && Enabled(g, CaseStep(id, a)) && a.TaskStep?
    ensures BooksAgree(Exec(g, CaseStep(id, a)))
  {
    var g' := Exec(g, CaseStep(id, a));
    var me := Caller(id, a.w);
    var t := C.TaskOf(g.cases[id], a.w, a.source);
    assert me in g.ledgers.At(a.source).inFlight <==> FliesIn(g, me, a.source);
    SharedFlight(g, me, a.source, t, a.a);
    FlyingStep(g.cases[id], a);
    P.TaskStepEffect(g.cases[id], a.w, a.source, a.a);
    forall who: Caller, s: Source
      ensures who in g'.ledgers.At(s).inFlight <==> FliesIn(g', who, s)
    {
      assert who in g.ledgers.At(s).inFlight <==> FliesIn(g, who, s);
      if (who, s) != (me, a.source) {
        assert FliesIn(g', who, s) == FliesIn(g, who, s);
      }
    }
  }

  lemma BooksAgreeStep(g: Gateway, a: Action)
    requires BooksAgree(g) && Enabled(g, a)
    ensures BooksAgree(Exec(g, a))
  {
    if a.CaseStep? && a.a.TaskStep? {
      BooksAgreeTask(g, a.id, a.a);
    } else {
      var g' := Exec(g, a);
      if a.CaseStep? { FlyingStep(g.cases[a.id], a.a); }
      forall who: Caller, s: Source
        ensures who in g'.ledgers.At(s).inFlight <==> FliesIn(g', who, s)
      {
        assert who in g.ledgers.At(s).inFlight <==> FliesIn(g, who, s);
      }
    }
  }
}

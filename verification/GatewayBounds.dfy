/** Global accounting: what holds across all cases, workers, breakers and the limiter in
    every reachable state of the gateway. */
module GatewayBounds {
  import opened Types
  import opened Gateway
  import opened Sums
  import C = LookupCase
  import P = LookupProtocol
  import T = SourceTask
  import CB = CircuitBreaker
  import RL = RateLimiter

  // -------------------------------------------------------------------------
  // Court tokens
  // -------------------------------------------------------------------------

  /** The court task of this worker has not taken its limiter token yet. */
  predicate BeforeToken(c: C.CaseState, w: nat) {
    || w !in c.workers || c.workers[w].phase.Loading?
    || (C.HasTask(c, w, Court) && (C.TaskOf(c, w, Court).pc.Begin? || C.TaskOf(c, w, Court).pc.AwaitToken?))
  }

  /** It has, and is inside its retry loop. */
  predicate Searching(c: C.CaseState, w: nat) {
    C.HasTask(c, w, Court) && (C.TaskOf(c, w, Court).pc.Calling? || C.TaskOf(c, w, Court).pc.Sleeping?)
  }

  ghost predicate TokensAgree(g: Gateway) {
    && (forall who <- g.charged :: who.caseId in g.cases && !BeforeToken(g.cases[who.caseId], who.worker))
    && (forall id, w: nat | id in g.cases && Searching(g.cases[id], w) ::
          Caller(id, w) in g.charged && g.charged[Caller(id, w)] == C.TaskOf(g.cases[id], w, Court).made)
  }

  ghost predicate CourtBooks(g: Gateway) {
    && |g.charged| == g.limiter.grants
    && g.searches == Sum(g.charged)
    && forall who <- g.charged :: g.charged[who] <= T.MaxCalls(Court)
  }

  lemma TokenStep(c: C.CaseState, a: C.Action)
    requires C.Enabled(c, a)
    ensures forall w | !(a.TaskStep? && w == a.w && a.source.Court?) ::
              && (BeforeToken(C.Exec(c, a), w) ==> BeforeToken(c, w))
              && (Searching(C.Exec(c, a), w) ==>
                    Searching(c, w) && C.TaskOf(C.Exec(c, a), w, Court).made == C.TaskOf(c, w, Court).made)
  {
    if a.TaskStep? { P.TaskStepEffect(c, a.w, a.source, a.a); }
  }

  /** Other workers' tokens are untouched by a court task step; `me` must be in order. */
  lemma TokensAgreeElsewhere(g: Gateway, g': Gateway, id: CaseId, a: C.Action)
    requires TokensAgree(g) && id in g.cases && C.Enabled(g.cases[id], a) && a.TaskStep? && a.source.Court?
    requires g'.cases == g.cases[id := C.Exec(g.cases[id], a)]
    requires forall who: Caller :: who != Caller(id, a.w) ==>
               (who in g'.charged <==> who in g.charged) && (who in g.charged ==> g'.charged[who] == g.charged[who])
    requires Caller(id, a.w) in g'.charged ==> !BeforeToken(g'.cases[id], a.w)
    requires Searching(g'.cases[id], a.w) ==>
               Caller(id, a.w) in g'.charged
               && g'.charged[Caller(id, a.w)] == C.TaskOf(g'.cases[id], a.w, Court).made
    ensures TokensAgree(g')
  {
    TokenStep(g.cases[id], a);
    forall who | who in g'.charged
      ensures who.caseId in g'.cases && !BeforeToken(g'.cases[who.caseId], who.worker)
    {}
    forall id', w: nat | id' in g'.cases && Searching(g'.cases[id'], w)
      ensures Caller(id', w) in g'.charged && g'.charged[Caller(id', w)] == C.TaskOf(g'.cases[id'], w, Court).made
    {}
  }

  /** What a court task step does to the shared state. */
  lemma CourtTaskEffect(g: Gateway, id: CaseId, a: C.Action)
    requires Enabled(g, CaseStep(id, a)) && a.TaskStep? && a.source.Court?
    ensures var g' := Exec(g, CaseStep(id, a));
            var me := Caller(id, a.w);
            && g'.cases == g.cases[id := C.Exec(g.cases[id], a)]
            && g'.charged == (if a.a.Grant? then g.charged[me := 0]
                              else if a.a.Call? then g.charged[me := ChargeOf(g, me) + 1]
                              else g.charged)
            && g'.searches == g.searches + T.Indicator(a.a.Call?)
            && g'.limiter.grants == g.limiter.grants + T.Indicator(a.a.Grant?)
  {}

  /** How a court task moves relative to its token. */
  lemma CourtTaskMoves(t: T.Task, ta: T.Action)
    requires T.TaskInv(t) && t.source.Court? && T.Enabled(t, ta)
    ensures var t' := T.Exec(t, ta);
            && (ta.Grant? ==> t.pc.AwaitToken? && t'.pc.Calling? && t'.made == 0)
            && (ta.Call? ==> t.pc.Calling? && t'.made == t.made + 1 <= T.MaxCalls(Court)
                             && !t'.pc.Begin? && !t'.pc.AwaitToken?)
            && (!ta.Grant? && !ta.Call? ==>
                  && t'.made == t.made
                  && (t'.pc.Begin? || t'.pc.AwaitToken? ==> t.pc.Begin? || t.pc.AwaitToken?)
                  && (t'.pc.Calling? || t'.pc.Sleeping? ==> t.pc.Calling? || t.pc.Sleeping?))
  {}

  lemma CourtBooksStep(g: Gateway, g': Gateway, me: Caller, ta: T.Action)
    requires CourtBooks(g)
    requires g'.searches == g.searches + T.Indicator(ta.Call?)
    requires g'.limiter.grants == g.limiter.grants + T.Indicator(ta.Grant?)
    requires ta.Grant? ==> me !in g.charged && g'.charged == g.charged[me := 0]
    requires ta.Call? ==> me in g.charged && g.charged[me] < T.MaxCalls(Court)
                          && g'.charged == g.charged[me := g.charged[me] + 1]
    requires !ta.Grant? && !ta.Call? ==> g'.charged == g.charged
    ensures CourtBooks(g')
  {
    if ta.Grant? {
      OneMoreCharged(g.charged, me, 0);
    } else if ta.Call? {
      OneMoreCharged(g.charged, me, g.charged[me] + 1);
    }
  }

  lemma OneMoreCharged(charged: map<Caller, nat>, me: Caller, n: nat)
    ensures |charged[me := n]| == |charged| + (if me in charged then 0 else 1)
    ensures Sum(charged[me := n]) == Sum(charged) + n - (if me in charged then charged[me] else 0)
  {
    SumUpdate(charged, me, n);
    assert charged[me := n].Keys == charged.Keys + {me};
    if me in charged { assert charged[me := n].Keys == charged.Keys; }
    assert |charged[me := n]| == |charged[me := n].Keys| && |charged| == |charged.Keys|;
  }

  /** Where the task stands tells whether it has been charged, and how much. */
  lemma CourtTaskCharge(g: Gateway, id: CaseId, w: nat)
    requires TokensAgree(g) && id in g.cases && C.HasTask(g.cases[id], w, Court)
    ensures var t := C.TaskOf(g.cases[id], w, Court);
            && (t.pc.Begin? || t.pc.AwaitToken? ==> Caller(id, w) !in g.charged)
            && (t.pc.Calling? || t.pc.Sleeping? ==> Caller(id, w) in g.charged && g.charged[Caller(id, w)] == t.made)
  {
    var t := C.TaskOf(g.cases[id], w, Court);
    assert t.pc.Begin? || t.pc.AwaitToken? ==> BeforeToken(g.cases[id], w);
    assert t.pc.Calling? || t.pc.Sleeping? ==> Searching(g.cases[id], w);
  }

  lemma CourtTokensKept(g: Gateway, id: CaseId, a: C.Action)
    requires id in g.cases && P.Shape(g.cases[id]) && TokensAgree(g)
    requires Enabled(g, CaseStep(id, a)) && a.TaskStep? && a.source.Court?
    ensures TokensAgree(Exec(g, CaseStep(id, a)))
  {
    P.TaskStepKeepsWorkers(g.cases[id], a.w, Court, a.a);
    P.TaskStepEffect(g.cases[id], a.w, Court, a.a);
    CourtTaskMoves(C.TaskOf(g.cases[id], a.w, Court), a.a);
    CourtTaskEffect(g, id, a);
    CourtTaskCharge(g, id, a.w);
    TokensAgreeElsewhere(g, Exec(g, CaseStep(id, a)), id, a);
  }

  lemma CourtBooksKept(g: Gateway, id: CaseId, a: C.Action)
    requires id in g.cases && P.Shape(g.cases[id]) && TokensAgree(g) && CourtBooks(g)
    requires Enabled(g, CaseStep(id, a)) && a.TaskStep? && a.source.Court?
    ensures CourtBooks(Exec(g, CaseStep(id, a)))
  {
    P.TaskStepKeepsWorkers(g.cases[id], a.w, Court, a.a);
    CourtTaskMoves(C.TaskOf(g.cases[id], a.w, Court), a.a);
    CourtTaskEffect(g, id, a);
    CourtTaskCharge(g, id, a.w);
    CourtBooksStep(g, Exec(g, CaseStep(id, a)), Caller(id, a.w), a.a);
  }

  /** Nothing but a court task's step touches the tokens and the searches. */
  lemma SameTokens(g: Gateway, a: Action)
    requires Enabled(g, a) && !(a.CaseStep? && a.a.TaskStep? && a.a.source.Court?)
    requires a.CaseStep? && a.a.TaskStep? ==> C.TaskOf(g.cases[a.id], a.a.w, a.a.source).source == a.a.source
    requires a.CaseStep? && a.a.TaskStep? ==> T.TaskInv(C.TaskOf(g.cases[a.id], a.a.w, a.a.source))
    ensures var g' := Exec(g, a);
            && g'.charged == g.charged && g'.searches == g.searches && g'.limiter.grants == g.limiter.grants
            && g'.cases == (if a.CaseStep? then g.cases[a.id := C.Exec(g.cases[a.id], a.a)] else g.cases)
  {}

  lemma OtherStep(g: Gateway, a: Action)
    requires TokensAgree(g) && CourtBooks(g) && Enabled(g, a)
    requires !(a.CaseStep? && a.a.TaskStep? && a.a.source.Court?)
    requires a.CaseStep? && a.a.TaskStep? ==> C.TaskOf(g.cases[a.id], a.a.w, a.a.source).source == a.a.source
    requires a.CaseStep? && a.a.TaskStep? ==> T.TaskInv(C.TaskOf(g.cases[a.id], a.a.w, a.a.source))
    ensures TokensAgree(Exec(g, a)) && CourtBooks(Exec(g, a))
  {
    SameTokens(g, a);
    if a.CaseStep? { TokensElsewhere(g, Exec(g, a), a.id, a.a); }
  }

  lemma TokensElsewhere(g: Gateway, g': Gateway, id: CaseId, a: C.Action)
    requires TokensAgree(g) && id in g.cases && C.Enabled(g.cases[id], a) && !(a.TaskStep? && a.source.Court?)
    requires g'.cases == g.cases[id := C.Exec(g.cases[id], a)] && g'.charged == g.charged
    ensures TokensAgree(g')
  {
    TokenStep(g.cases[id], a);
  }

  // -------------------------------------------------------------------------
  // The invariant
  // -------------------------------------------------------------------------

  ghost predicate Inv(g: Gateway) {
    && (forall id <- g.cases :: P.Unrestricted(g.cases[id]))
    && (forall s: Source :: CB.Balanced(g.ledgers.At(s)))
    && g.ledgers.court.abandoned == 0 && g.ledgers.property.abandoned == 0
    && RL.Conserved(g.limiter) && !g.limiter.stopped
    && BooksAgree(g) && TokensAgree(g) && CourtBooks(g)
  }

  lemma StartedInv(courts: map<CaseId, bool>)
    ensures Inv(Started(courts))
  {
    var g := Started(courts);
    forall id | id in g.cases
      ensures P.Unrestricted(g.cases[id])
    {
      P.UntouchedUnrestricted(courts[id]);
    }
  }

  lemma BalancedLedger(g: Gateway, a: Action, s: Source)
    requires CB.Balanced(g.ledgers.At(s)) && Enabled(g, a)
    ensures CB.Balanced(Exec(g, a).ledgers.At(s))
  {
    var e := LedgerEvent(g, a, s);
    LedgerStep(g, a, s);
    if e.Some? { CB.BalancedStep(g.ledgers.At(s), e.value); }
  }

  /** Only an SCRA task can end without a report. */
  lemma NeverAbandoned(g: Gateway, a: Action, s: Source)
    requires Enabled(g, a) && g.ledgers.At(s).abandoned == 0 && s != Scra
    requires a.CaseStep? ==> P.Shape(g.cases[a.id])
    ensures Exec(g, a).ledgers.At(s).abandoned == 0
  {
    LedgerStep(g, a, s);
    if a.CaseStep? && a.a.TaskStep? {
      P.TaskStepKeepsWorkers(g.cases[a.id], a.a.w, a.a.source, a.a.a);
    }
  }

  lemma LedgersStep(g: Gateway, a: Action)
    requires Inv(g) && Enabled(g, a)
    ensures forall s: Source :: CB.Balanced(Exec(g, a).ledgers.At(s))
    ensures Exec(g, a).ledgers.court.abandoned == 0 && Exec(g, a).ledgers.property.abandoned == 0
  {
    if a.CaseStep? { assert P.Unrestricted(g.cases[a.id]); }
    NeverAbandoned(g, a, Court);
    NeverAbandoned(g, a, Property);
    forall s: Source
      ensures CB.Balanced(Exec(g, a).ledgers.At(s))
    {
      assert CB.Balanced(g.ledgers.At(s));
      BalancedLedger(g, a, s);
    }
  }

  /** The breaker event, if any, that a gateway step is for source `s`. */
  function LedgerEvent(g: Gateway, a: Action, s: Source): Option<CB.Event>
    requires Enabled(g, a)
  {
    match a
    case CaseStep(id, ca) =>
      if ca.TaskStep? && ca.source == s
      then BreakerEvent(Caller(id, ca.w), C.TaskOf(g.cases[id], ca.w, s), ca.a)
      else None
    case Elapse(d) => Some(CB.Elapse(d))
    case Health(u) => if u == s then Some(CB.Inspect) else None
    case Limit(_) => None
  }

  lemma LedgerStep(g: Gateway, a: Action, s: Source)
    requires Enabled(g, a)
    ensures var e := LedgerEvent(g, a, s);
            && (e.None? ==> Exec(g, a).ledgers.At(s) == g.ledgers.At(s))
            && (e.Some? ==> CB.Possible(g.ledgers.At(s), e.value)
                            && Exec(g, a).ledgers.At(s) == CB.Next(g.ledgers.At(s), e.value))
  {}

  lemma CasesStep(g: Gateway, a: Action)
    requires Inv(g) && Enabled(g, a)
    ensures forall id <- Exec(g, a).cases :: P.Unrestricted(Exec(g, a).cases[id])
  {
    if a.CaseStep? {
      P.UnrestrictedStep(g.cases[a.id], a.a);
      assert Exec(g, a).cases == g.cases[a.id := C.Exec(g.cases[a.id], a.a)];
    }
  }

  lemma LimiterStep(g: Gateway, a: Action)
    requires RL.Conserved(g.limiter) && !g.limiter.stopped && Enabled(g, a)
    ensures RL.Conserved(Exec(g, a).limiter) && !Exec(g, a).limiter.stopped
  {}

  lemma InvStep(g: Gateway, a: Action)
    requires Inv(g) && Enabled(g, a)
    ensures Inv(Exec(g, a))
  {
    CasesStep(g, a);
    LimiterStep(g, a);
    LedgersStep(g, a);
    BooksAgreeStep(g, a);
    if a.CaseStep? && a.a.TaskStep? {
      P.TaskStepKeepsWorkers(g.cases[a.id], a.a.w, a.a.source, a.a.a);
    }
    if a.CaseStep? && a.a.TaskStep? && a.a.source.Court? {
      CourtTokensKept(g, a.id, a.a);
      CourtBooksKept(g, a.id, a.a);
    } else {
      OtherStep(g, a);
    }
  }

  lemma {:induction false} InvAlways(g: Gateway, acts: seq<Action>)
    requires Inv(g) && Legal(g, acts)
    ensures Inv(ExecAll(g, acts))
    decreases |acts|
  {
    if acts != [] {
      InvStep(g, acts[0]);
      InvAlways(Exec(g, acts[0]), acts[1..]);
    }
  }

  // -------------------------------------------------------------------------
  // Theorems
  // -------------------------------------------------------------------------

  ghost function TasksInFlight(g: Gateway, s: Source): set<Caller> {
    set id, w | id in g.cases && w in g.cases[id].workers && Flying(g.cases[id], w, s) :: Caller(id, w)
  }

  lemma FlightsAreBooked(g: Gateway, s: Source)
    requires BooksAgree(g)
    ensures g.ledgers.At(s).inFlight == TasksInFlight(g, s)
  {
    assert forall who: Caller :: who in g.ledgers.At(s).inFlight <==> FliesIn(g, who, s);
  }

  /** At every moment, the calls a breaker admitted are those that succeeded, those that
      failed, the tasks still in flight, and, for SCRA only, the poll timeouts. */
  lemma BreakerAccounting(courts: map<CaseId, bool>, acts: seq<Action>, s: Source)
    requires Legal(Started(courts), acts)
    ensures var g := ExecAll(Started(courts), acts);
            var l := g.ledgers.At(s);
            && l.admitted == l.successes + l.failures + l.abandoned + |TasksInFlight(g, s)|
            && (!s.Scra? ==> l.abandoned == 0)
  {
    StartedInv(courts);
    InvAlways(Started(courts), acts);
    assert CB.Balanced(ExecAll(Started(courts), acts).ledgers.At(s));
    FlightsAreBooked(ExecAll(Started(courts), acts), s);
  }

  /** Over all cases and all rounds, the court service sees at most five searches per
      limiter token, and at most one token per tick besides the initial one. */
  lemma CourtRequestBound(courts: map<CaseId, bool>, acts: seq<Action>)
    requires Legal(Started(courts), acts)
    ensures var g := ExecAll(Started(courts), acts);
            g.searches <= 5 * g.limiter.grants <= 5 * (1 + g.limiter.ticks)
  {
    StartedInv(courts);
    InvAlways(Started(courts), acts);
    SumBound(ExecAll(Started(courts), acts).charged, 5);
  }

  // Runs of the gateway, seen from one case and from one breaker.

  ghost function CaseRun(acts: seq<Action>, id: CaseId): seq<C.Action> {
    if acts == [] then []
    else (if acts[0].CaseStep? && acts[0].id == id then [acts[0].a] else []) + CaseRun(acts[1..], id)
  }

  /** Re-triggers of the case never overlap during the run. */
  ghost predicate AlwaysApart(g: Gateway, acts: seq<Action>, id: CaseId)
    requires Legal(g, acts)
    decreases |acts|
  {
    && (id in g.cases ==> C.Apart(g.cases[id]))
    && (acts != [] ==> AlwaysApart(Exec(g, acts[0]), acts[1..], id))
  }

  lemma {:induction false} CaseProjection(g: Gateway, acts: seq<Action>, id: CaseId)
    requires Legal(g, acts) && id in g.cases
    ensures id in ExecAll(g, acts).cases
    ensures C.Legal(g.cases[id], CaseRun(acts, id))
    ensures ExecAll(g, acts).cases[id] == C.ExecAll(g.cases[id], CaseRun(acts, id))
    ensures AlwaysApart(g, acts, id) ==> C.LegalApart(g.cases[id], CaseRun(acts, id))
    decreases |acts|
  {
    if acts != [] {
      var g1 := Exec(g, acts[0]);
      CaseProjection(g1, acts[1..], id);
      var rest := CaseRun(acts[1..], id);
      if acts[0].CaseStep? && acts[0].id == id {
        assert CaseRun(acts, id)[0] == acts[0].a && CaseRun(acts, id)[1..] == rest;
        if AlwaysApart(g, acts, id) { assert AlwaysApart(g1, acts[1..], id); }
      } else {
        assert CaseRun(acts, id) == rest;
      }
    }
  }

  ghost function BreakerRun(g: Gateway, acts: seq<Action>, s: Source): seq<CB.Event>
    requires Legal(g, acts)
    decreases |acts|
  {
    if acts == [] then []
    else
      var e := LedgerEvent(g, acts[0], s);
      (if e.Some? then [e.value] else []) + BreakerRun(Exec(g, acts[0]), acts[1..], s)
  }

  lemma {:induction false} BreakerProjection(g: Gateway, acts: seq<Action>, s: Source)
    requires Legal(g, acts)
    ensures CB.PossibleAll(g.ledgers.At(s), BreakerRun(g, acts, s))
    ensures ExecAll(g, acts).ledgers.At(s) == CB.NextAll(g.ledgers.At(s), BreakerRun(g, acts, s))
    decreases |acts|
  {
    if acts != [] {
      var g1 := Exec(g, acts[0]);
      BreakerProjection(g1, acts[1..], s);
      LedgerStep(g, acts[0], s);
      var e := LedgerEvent(g, acts[0], s);
      if e.Some? {
        assert BreakerRun(g, acts, s)[0] == e.value && BreakerRun(g, acts, s)[1..] == BreakerRun(g1, acts[1..], s);
      } else {
        assert BreakerRun(g, acts, s) == BreakerRun(g1, acts[1..], s);
      }
    }
  }

  lemma {:induction false} CountersTellEvents(l: CB.Ledger, es: seq<CB.Event>)
    requires CB.PossibleAll(l, es)
    ensures l.abandoned <= CB.NextAll(l, es).abandoned && l.successes <= CB.NextAll(l, es).successes
    ensures l.admitted <= CB.NextAll(l, es).admitted
    ensures CB.NextAll(l, es).admitted == l.admitted ==> forall e <- es :: e.Ask? ==> !e.ok
    ensures CB.NextAll(l, es).abandoned == l.abandoned ==> forall e <- es :: !e.Abandon?
    ensures CB.NextAll(l, es).successes == l.successes ==> forall e <- es :: e.Report? ==> !e.ok
    decreases |es|
  {
    if es != [] {
      CountersTellEvents(CB.Next(l, es[0]), es[1..]);
      assert es == [es[0]] + es[1..];
    }
  }

  lemma OpenBreakerFrom(g: Gateway, acts: seq<Action>, s: Source)
    requires Legal(g, acts) && CB.Balanced(g.ledgers.At(s)) && g.ledgers.At(s).b.state.Open?
    requires ExecAll(g, acts).ledgers.At(s).successes == g.ledgers.At(s).successes
    ensures var l, l' := g.ledgers.At(s), ExecAll(g, acts).ledgers.At(s);
            (l'.admitted - l.admitted) * l.b.cooldown <= l'.now - l.b.openedAt
  {
    BreakerProjection(g, acts, s);
    CountersTellEvents(g.ledgers.At(s), BreakerRun(g, acts, s));
    CB.LedgerAdmissionBound(g.ledgers.At(s), BreakerRun(g, acts, s));
  }

  lemma SameCooldown(courts: map<CaseId, bool>, acts: seq<Action>, s: Source)
    requires Legal(Started(courts), acts)
    ensures ExecAll(Started(courts), acts).ledgers.At(s).b.cooldown == COOLDOWN
  {
    var g := Started(courts);
    BreakerProjection(g, acts, s);
    CB.LedgerFollowsCalls(g.ledgers.At(s), BreakerRun(g, acts, s));
    CB.StateRefinesHistory(MAX_FAILURES, COOLDOWN, CB.CallsIn(g.ledgers.At(s), BreakerRun(g, acts, s)));
  }

  lemma {:induction false} NoHealthNoInspect(g: Gateway, acts: seq<Action>, s: Source)
    requires Legal(g, acts) && forall a <- acts :: a != Health(s)
    ensures forall e <- BreakerRun(g, acts, s) :: !e.Inspect?
    decreases |acts|
  {
    if acts != [] {
      assert acts[0] in acts && forall a <- acts[1..] :: a in acts;
      NoHealthNoInspect(Exec(g, acts[0]), acts[1..], s);
    }
  }

  /** As long as no health query asks for its state, the property breaker and the court
      breaker always recover: with no task in flight, waiting one cooldown is enough to be admitted. For
      SCRA this needs, besides, that no poll has timed out. */
  lemma IdleSourceRecovers(courts: map<CaseId, bool>, acts: seq<Action>, s: Source)
    requires Legal(Started(courts), acts) && forall a <- acts :: a != Health(s)
    requires var g := ExecAll(Started(courts), acts);
             TasksInFlight(g, s) == {} && (s.Scra? ==> g.ledgers.scra.abandoned == 0)
    ensures var l := ExecAll(Started(courts), acts).ledgers.At(s);
            forall d: nat :: d >= COOLDOWN ==> CB.AdmitsAfter(l, d)
  {
    var g0 := Started(courts);
    var g := ExecAll(g0, acts);
    BreakerAccounting(courts, acts, s);
    StartedInv(courts);
    InvAlways(g0, acts);
    FlightsAreBooked(g, s);
    BreakerProjection(g0, acts, s);
    NoHealthNoInspect(g0, acts, s);
    CountersTellEvents(g0.ledgers.At(s), BreakerRun(g0, acts, s));
    CB.IdleBreakerRecovers(MAX_FAILURES, COOLDOWN, BreakerRun(g0, acts, s));
  }
}

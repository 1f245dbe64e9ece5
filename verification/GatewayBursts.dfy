/** How many requests a token pays for: five, as the bound permits, with one case after the
    other; but only one as long as no search fails transiently. */
module GatewayBursts {
  import opened Types
  import opened Gateway
  import opened GatewayBounds
  import opened Sums
  import C = LookupCase
  import P = LookupProtocol
  import T = SourceTask
  import RL = RateLimiter
  import Retry

  /** The court task of the case's first worker. */
  predicate Stands(g: Gateway, id: CaseId, t: T.Task) {
    && id in g.cases && g.cases[id].run.Some?
    && C.HasTask(g.cases[id], 0, Court) && C.TaskOf(g.cases[id], 0, Court) == t
  }

  predicate Calm(g: Gateway) {
    g.ledgers.court.b.state.Closed?
  }

  /** Only case `id` has moved, and with it at most its own place in the court breaker's
      books. */
  ghost predicate OnlyCase(g: Gateway, g': Gateway, id: CaseId) {
    && id in g.cases && id in g'.cases && g'.cases == g.cases[id := g'.cases[id]]
    && g'.limiter.ticks == g.limiter.ticks && g'.limiter.stopped == g.limiter.stopped
    && g'.limiter.holding == g.limiter.holding && g'.limiter.pending == g.limiter.pending
    && forall who: Caller :: who.caseId != id ==>
         (who in g'.ledgers.court.inFlight <==> who in g.ledgers.court.inFlight)
  }

  function CourtTask(): T.Task {
    T.Task(Court, true, 0, 0, T.Begin)
  }

  function TaskStep(id: CaseId, ta: T.Action): Action {
    CaseStep(id, C.TaskStep(0, Court, ta))
  }

  /** What one step of the court task does, up to its report. */
  lemma TaskMove(g: Gateway, id: CaseId, t: T.Task, ta: T.Action)
    requires Calm(g) && Stands(g, id, t) && t.source == Court
    requires T.Enabled(t, ta) && (ta.Ask? || ta.Grant? || ta.Call? || ta.Wake?)
    requires ta.Ask? ==> ta.ok && Caller(id, 0) !in g.ledgers.court.inFlight
    requires ta.Grant? ==> g.limiter.bucket > 0
    ensures Enabled(g, TaskStep(id, ta))
    ensures var g' := Exec(g, TaskStep(id, ta));
            && Calm(g') && Stands(g', id, T.Exec(t, ta)) && OnlyCase(g, g', id)
            && g'.searches == g.searches + (if ta.Call? then 1 else 0)
            && g'.limiter.bucket == g.limiter.bucket - (if ta.Grant? then 1 else 0)
  {}

  /** From the `k`-th attempt on, every search fails transiently. */
  lemma {:induction false} Searches(g0: Gateway, acts: seq<Action>, g: Gateway, id: CaseId, t: T.Task, k: nat)
    returns (acts': seq<Action>, g': Gateway)
    requires Path(g0, acts, g) && Calm(g) && Stands(g, id, t)
    requires 1 <= k <= 5 && t.source == Court && t.pc == T.Calling(k)
    ensures Path(g0, acts', g') && Calm(g') && OnlyCase(g, g', id)
    ensures g'.searches == g.searches + 6 - k && g'.limiter.bucket == g.limiter.bucket
    decreases 5 - k
  {
    var call := T.Call(Retry.Transient);
    TaskMove(g, id, t, call);
    acts', g' := Then(g0, acts, g, TaskStep(id, call));
    if k < 5 {
      var t1, g1 := T.Exec(t, call), g';
      TaskMove(g1, id, t1, T.Wake);
      acts', g' := Then(g0, acts', g1, TaskStep(id, T.Wake));
      acts', g' := Searches(g0, acts', g', id, T.Exec(t1, T.Wake), k + 1);
    }
  }

  /** One admitted court task spends the token on five searches. */
  lemma Burst(g0: Gateway, acts: seq<Action>, g: Gateway, id: CaseId) returns (acts': seq<Action>, g': Gateway)
    requires Path(g0, acts, g) && Calm(g) && Stands(g, id, CourtTask()) && g.limiter.bucket == 1
    requires Caller(id, 0) !in g.ledgers.court.inFlight
    ensures Path(g0, acts', g') && Calm(g') && OnlyCase(g, g', id)
    ensures g'.searches == g.searches + 5 && g'.limiter.bucket == 0
  {
    var t1 := CourtTask().(pc := T.AwaitToken);
    TaskMove(g, id, CourtTask(), T.Ask(true));
    acts', g' := Then(g0, acts, g, TaskStep(id, T.Ask(true)));
    TaskMove(g', id, t1, T.Grant);
    acts', g' := Then(g0, acts', g', TaskStep(id, T.Grant));
    acts', g' := Searches(g0, acts', g', id, t1.(pc := T.Calling(1)), 1);
  }

  function WithCase(g: Gateway, id: CaseId, c: C.CaseState): Gateway {
    g.(cases := g.cases[id := c])
  }

  /** A step of the case that touches nothing shared. */
  lemma CaseMove(g0: Gateway, acts: seq<Action>, g: Gateway, id: CaseId, c: C.CaseState, a: C.Action)
    returns (acts': seq<Action>)
    requires Path(g0, acts, WithCase(g, id, c)) && C.Enabled(c, a) && !a.TaskStep?
    ensures Path(g0, acts', WithCase(g, id, C.Exec(c, a)))
  {
    var g1 := WithCase(g, id, c);
    var g2;
    acts', g2 := Then(g0, acts, g1, CaseStep(id, a));
    assert Exec(g1, CaseStep(id, a)) == WithCase(g, id, C.Exec(c, a));
  }

  /** The case after its first call has launched a worker that has loaded its sources. */
  function Launched(): C.CaseState {
    C.CaseState(true, Some(C.FreshRun(0)), map[0 := C.Answered(202)],
                map[0 := C.Worker(true, C.Working(C.Launch(C.FRESH_ROWS, true)))], PerSource(0, 0, 0))
  }

  /** A case nobody has asked for gets a call. */
  lemma Launches(g0: Gateway, acts: seq<Action>, g: Gateway, id: CaseId) returns (acts': seq<Action>)
    requires Path(g0, acts, g) && id in g.cases && g.cases[id] == C.Untouched(true)
    ensures Path(g0, acts', WithCase(g, id, Launched()))
  {
    var c := C.Untouched(true);
    assert WithCase(g, id, c) == g;
    acts' := CaseMove(g0, acts, g, id, c, C.Arrive(0));
    c := C.Exec(c, C.Arrive(0));
    acts' := CaseMove(g0, acts', g, id, c, C.ReadRun(0));
    c := C.Exec(c, C.ReadRun(0));
    acts' := CaseMove(g0, acts', g, id, c, C.Create(0, 0));
    c := C.Exec(c, C.Create(0, 0));
    acts' := CaseMove(g0, acts', g, id, c, C.Spawn(0, 0));
    c := C.Exec(c, C.Spawn(0, 0));
    acts' := CaseMove(g0, acts', g, id, c, C.Load(0));
    assert C.Exec(c, C.Load(0)) == Launched();
  }

  /** The next tick brings the next token. */
  lemma NextToken(g0: Gateway, acts: seq<Action>, g: Gateway) returns (acts': seq<Action>, g': Gateway)
    requires Path(g0, acts, g) && g.limiter.bucket == 0 && !g.limiter.holding && !g.limiter.pending
    requires !g.limiter.stopped
    ensures Path(g0, acts', g') && g'.limiter.bucket == 1 && !g'.limiter.holding && !g'.limiter.pending
    ensures g'.limiter.ticks == g.limiter.ticks + 1 && !g'.limiter.stopped && g' == g.(limiter := g'.limiter)
  {
    acts', g' := Then(g0, acts, g, Limit(RL.Fire));
    acts', g' := Then(g0, acts', g', Limit(RL.Take));
    acts', g' := Then(g0, acts', g', Limit(RL.Deposit));
  }

  ghost predicate Distinct(courts: map<CaseId, bool>, ids: seq<CaseId>) {
    && (forall id <- ids :: id in courts && courts[id])
    && forall i, j :: 0 <= i < j < |ids| ==> ids[i] != ids[j]
  }

  /** The cases from the `k`-th on have not been asked for. */
  ghost predicate Idle(g: Gateway, ids: seq<CaseId>, k: nat) {
    forall j :: k <= j < |ids| ==>
      && ids[j] in g.cases && g.cases[ids[j]] == C.Untouched(true)
      && Caller(ids[j], 0) !in g.ledgers.court.inFlight
  }

  /** After `k` bursts and `n` ticks. */
  ghost predicate Burnt(g: Gateway, ids: seq<CaseId>, k: nat, n: nat, bucket: nat) {
    && Calm(g) && g.searches == 5 * k && Idle(g, ids, k)
    && g.limiter.ticks == n && g.limiter.bucket == bucket
    && !g.limiter.holding && !g.limiter.pending && !g.limiter.stopped
  }

  lemma NextBurst(g0: Gateway, acts: seq<Action>, g: Gateway, ids: seq<CaseId>, k: nat, courts: map<CaseId, bool>)
    returns (acts': seq<Action>, g': Gateway)
    requires Distinct(courts, ids) && k < |ids| && Path(g0, acts, g) && Burnt(g, ids, k, k, 1)
    ensures Path(g0, acts', g') && Burnt(g', ids, k + 1, k, 0)
  {
    var id := ids[k];
    acts' := Launches(g0, acts, g, id);
    acts', g' := Burst(g0, acts', WithCase(g, id, Launched()), id);
    forall j | k + 1 <= j < |ids|
      ensures ids[j] in g'.cases && g'.cases[ids[j]] == C.Untouched(true)
      ensures Caller(ids[j], 0) !in g'.ledgers.court.inFlight
    {
      assert ids[j] != id && Caller(ids[j], 0).caseId != id;
    }
  }

  lemma StartsIdle(courts: map<CaseId, bool>, ids: seq<CaseId>)
    requires Distinct(courts, ids)
    ensures Burnt(Started(courts), ids, 0, 0, 1)
  {
    forall j | 0 <= j < |ids|
      ensures ids[j] in Started(courts).cases && Started(courts).cases[ids[j]] == C.Untouched(true)
    {
      assert ids[j] in ids;
    }
  }

  lemma {:induction false} Bursts(courts: map<CaseId, bool>, ids: seq<CaseId>, k: nat)
    returns (acts: seq<Action>, g: Gateway)
    requires Distinct(courts, ids) && 1 <= k <= |ids|
    ensures Path(Started(courts), acts, g) && Burnt(g, ids, k, k - 1, 0)
  {
    var g0 := Started(courts);
    if k == 1 {
      StartsIdle(courts, ids);
      acts, g := NextBurst(g0, [], g0, ids, 0, courts);
    } else {
      acts, g := Bursts(courts, ids, k - 1);
      acts, g := NextToken(g0, acts, g);
      acts, g := NextBurst(g0, acts, g, ids, k - 1, courts);
    }
  }

  /** For every number of ticks there is a run, over that many cases with a court number and
      one more, in which the court service sees 5 * (1 + ticks) searches. */
  lemma CourtRequestBoundIsTight(courts: map<CaseId, bool>, ids: seq<CaseId>)
    requires Distinct(courts, ids) && ids != []
    ensures exists acts ::
      && Legal(Started(courts), acts)
      && var g := ExecAll(Started(courts), acts);
         g.limiter.ticks == |ids| - 1 && g.searches == 5 * (1 + g.limiter.ticks)
  {
    var acts, g := Bursts(courts, ids, |ids|);
    assert Legal(Started(courts), acts) && ExecAll(Started(courts), acts) == g;
  }

  // -------------------------------------------------------------------------
  // Without transient answers
  // -------------------------------------------------------------------------

  predicate TransientSearch(a: Action) {
    a.CaseStep? && a.a.TaskStep? && a.a.source.Court? && a.a.a == T.Call(Retry.Transient)
  }

  /** Nobody searches a second time. */
  ghost predicate FirstTries(g: Gateway) {
    && (forall id, w: nat | id in g.cases && Searching(g.cases[id], w) :: C.TaskOf(g.cases[id], w, Court).made == 0)
    && forall who <- g.charged :: g.charged[who] <= 1
  }

  /** The court task that moves. */
  lemma FirstTry(t: T.Task, ta: T.Action)
    requires T.TaskInv(t) && t.source.Court? && T.Enabled(t, ta) && ta != T.Call(Retry.Transient)
    requires t.pc.Calling? || t.pc.Sleeping? ==> t.made == 0
    ensures var t' := T.Exec(t, ta);
            t'.pc.Calling? || t'.pc.Sleeping? ==> t'.made == 0
  {}

  /** A step of a case whose moving court task, if any, is still at its first try. */
  lemma FirstTriesKept(g: Gateway, g': Gateway, id: CaseId, a: C.Action)
    requires FirstTries(g) && id in g.cases && C.Enabled(g.cases[id], a)
    requires g'.cases == g.cases[id := C.Exec(g.cases[id], a)]
    requires a.TaskStep? && a.source.Court? && Searching(g'.cases[id], a.w) ==>
               C.TaskOf(g'.cases[id], a.w, Court).made == 0
    requires forall who <- g'.charged :: g'.charged[who] <= 1
    ensures FirstTries(g')
  {
    TokenStep(g.cases[id], a);
    forall id', w: nat | id' in g'.cases && Searching(g'.cases[id'], w)
      ensures C.TaskOf(g'.cases[id'], w, Court).made == 0
    {
      if id' != id { assert Searching(g.cases[id'], w); }
    }
  }

  lemma ChargedOnce(g: Gateway, id: CaseId, a: C.Action)
    requires TokensAgree(g) && FirstTries(g) && Enabled(g, CaseStep(id, a)) && a.TaskStep? && a.source.Court?
    requires P.Shape(g.cases[id])
    ensures forall who <- Exec(g, CaseStep(id, a)).charged :: Exec(g, CaseStep(id, a)).charged[who] <= 1
  {
    P.TaskStepKeepsWorkers(g.cases[id], a.w, Court, a.a);
    CourtTaskEffect(g, id, a);
    CourtTaskCharge(g, id, a.w);
    if a.a.Call? { assert Searching(g.cases[id], a.w); }
  }

  lemma FirstTriesTask(g: Gateway, id: CaseId, a: C.Action)
    requires TokensAgree(g) && FirstTries(g) && Enabled(g, CaseStep(id, a)) && a.TaskStep? && a.source.Court?
    requires P.Shape(g.cases[id]) && !TransientSearch(CaseStep(id, a))
    ensures FirstTries(Exec(g, CaseStep(id, a)))
  {
    var c := g.cases[id];
    var t := C.TaskOf(c, a.w, Court);
    P.TaskStepKeepsWorkers(c, a.w, Court, a.a);
    P.TaskStepEffect(c, a.w, Court, a.a);
    if t.pc.Calling? || t.pc.Sleeping? { assert Searching(c, a.w); }
    FirstTry(t, a.a);
    CourtTaskEffect(g, id, a);
    ChargedOnce(g, id, a);
    FirstTriesKept(g, Exec(g, CaseStep(id, a)), id, a);
  }

  lemma FirstTriesStep(g: Gateway, a: Action)
    requires Inv(g) && FirstTries(g) && Enabled(g, a) && !TransientSearch(a)
    ensures FirstTries(Exec(g, a))
  {
    if a.CaseStep? {
      assert P.Unrestricted(g.cases[a.id]);
      if a.a.TaskStep? && a.a.source.Court? {
        FirstTriesTask(g, a.id, a.a);
      } else {
        ChargesElsewhere(g, a.id, a.a);
        FirstTriesKept(g, Exec(g, a), a.id, a.a);
      }
    }
  }

  lemma ChargesElsewhere(g: Gateway, id: CaseId, a: C.Action)
    requires Enabled(g, CaseStep(id, a)) && !(a.TaskStep? && a.source.Court?) && P.Shape(g.cases[id])
    ensures Exec(g, CaseStep(id, a)).charged == g.charged
  {
    if a.TaskStep? { P.TaskStepKeepsWorkers(g.cases[id], a.w, a.source, a.a); }
  }

  lemma {:induction false} FirstTriesAlways(g: Gateway, acts: seq<Action>)
    requires Inv(g) && FirstTries(g) && Legal(g, acts) && forall a <- acts :: !TransientSearch(a)
    ensures Inv(ExecAll(g, acts)) && FirstTries(ExecAll(g, acts))
    decreases |acts|
  {
    if acts != [] {
      assert acts[0] in acts && forall a <- acts[1..] :: a in acts;
      InvStep(g, acts[0]);
      FirstTriesStep(g, acts[0]);
      FirstTriesAlways(Exec(g, acts[0]), acts[1..]);
    }
  }

  /** As long as no search fails transiently, over all cases and rounds, the court service
      sees at most one search per token, as the limiter intends. */
  lemma OneSearchPerToken(courts: map<CaseId, bool>, acts: seq<Action>)
    requires Legal(Started(courts), acts) && forall a <- acts :: !TransientSearch(a)
    ensures ExecAll(Started(courts), acts).searches <= ExecAll(Started(courts), acts).limiter.grants
  {
    StartedInv(courts);
    FirstTriesAlways(Started(courts), acts);
    SumBound(ExecAll(Started(courts), acts).charged, 1);
  }
}

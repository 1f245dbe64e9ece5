/** Inevitability: what every schedule that is fair to its goroutines comes to. */
module GatewayFairness {
  import opened Types
  import opened Gateway
  import opened GatewayBounds
  import opened GatewayBudgets
  import C = LookupCase
  import P = LookupProtocol
  import L = GatewayLiveness

  // -------------------------------------------------------------------------
  // Infinite schedules
  // -------------------------------------------------------------------------

  /** Where the gateway stands at each moment, and what happens next. */
  datatype Schedule = Schedule(at: nat -> Gateway, step: nat -> Action)

  ghost predicate Follows(x: Schedule, k: nat) {
    Enabled(x.at(k), x.step(k)) && x.at(k + 1) == Exec(x.at(k), x.step(k))
  }

  ghost predicate AllFollow(x: Schedule) {
    forall k: nat :: Follows(x, k)
  }

  ghost predicate Runs(x: Schedule, courts: map<CaseId, bool>) {
    x.at(0) == Started(courts) && AllFollow(x)
  }

  predicate OwnStepAt(x: Schedule, k: nat, id: CaseId, who: Goroutine) {
    x.step(k).CaseStep? && x.step(k).id == id && Own(x.step(k).a, who)
  }

  /** The goroutine gets a step, or there was a token and none of its steps was possible. */
  ghost predicate Served(x: Schedule, k: nat, id: CaseId, who: Goroutine) {
    || OwnStepAt(x, k, id, who)
    || (x.at(k).limiter.bucket > 0 && Stalled(x.at(k), id, who))
  }

  ghost predicate ServedSince(x: Schedule, from: nat, id: CaseId, who: Goroutine) {
    exists j: nat :: from <= j && Served(x, j, id, who)
  }

  /** Ticks go on bringing tokens and the scheduler does not neglect the goroutine: it never
      happens that from some moment on it gets no step although, whenever a token is there,
      it could. Nothing is said of how many calls arrive. */
  ghost predicate FairTo(x: Schedule, id: CaseId, who: Goroutine) {
    forall from: nat :: ServedSince(x, from, id, who)
  }

  ghost predicate Fair(x: Schedule, id: CaseId) {
    forall who: Goroutine :: FairTo(x, id, who)
  }

  lemma {:induction false} Always(p: nat -> bool, k: nat)
    requires p(0) && forall i: nat :: p(i) ==> p(i + 1)
    ensures p(k)
  {
    if k > 0 { Always(p, k - 1); }
  }

  lemma SaneAt(x: Schedule, courts: map<CaseId, bool>, id: CaseId, k: nat)
    requires Runs(x, courts) && id in courts
    ensures Sane(x.at(k), id)
  {
    ghost var sane := (i: nat) => Sane(x.at(i), id);
    assert sane(0) by { StartedInv(courts); }
    forall i: nat | sane(i)
      ensures sane(i + 1)
    {
      assert Follows(x, i);
      InvStep(x.at(i), x.step(i));
    }
    Always(sane, k);
  }

  // -------------------------------------------------------------------------
  // Every goroutine comes to its end
  // -------------------------------------------------------------------------

  /** Only its own steps move it. */
  predicate Same(c: C.CaseState, c': C.CaseState, who: Goroutine) {
    match who
    case Call(t) => t in c.triggers && t in c'.triggers && c'.triggers[t] == c.triggers[t]
    case Work(w) => w in c.workers && w in c'.workers && c'.workers[w] == c.workers[w]
  }

  lemma OthersStep(g: Gateway, a: Action, id: CaseId, who: Goroutine)
    requires Sane(g, id) && Enabled(g, a) && Unfinished(g.cases[id], who)
    requires !(a.CaseStep? && a.id == id && Own(a.a, who))
    ensures id in Exec(g, a).cases && Same(g.cases[id], Exec(g, a).cases[id], who)
  {
    if a.CaseStep? && a.id == id {
      P.WorkersAfter(g.cases[id], a.a);
      if who.Work? {
        assert P.Unrestricted(g.cases[id]);
        L.WorkerStep(g.cases[id], a.a, who.w);
      }
    }
  }

  /** At moment `i` it takes a step. */
  ghost predicate Takes(x: Schedule, i: nat, id: CaseId, who: Goroutine) {
    && id in x.at(i).cases && id in x.at(i + 1).cases && OwnStepAt(x, i, id, who)
    && P.Unrestricted(x.at(i).cases[id]) && C.Enabled(x.at(i).cases[id], x.step(i).a)
    && x.at(i + 1).cases[id] == C.Exec(x.at(i).cases[id], x.step(i).a)
  }

  lemma TakesStep(x: Schedule, i: nat, id: CaseId, who: Goroutine)
    requires Sane(x.at(i), id) && Follows(x, i) && OwnStepAt(x, i, id, who)
    ensures Takes(x, i, id, who)
  {
    assert P.Unrestricted(x.at(i).cases[id]);
  }

  /** Its next step, and where it still stands then. */
  lemma {:induction false} NextStep(x: Schedule, courts: map<CaseId, bool>, id: CaseId, who: Goroutine, k: nat, j: nat)
    returns (i: nat)
    requires Runs(x, courts) && id in courts && k <= j && Served(x, j, id, who)
    requires id in x.at(k).cases && Unfinished(x.at(k).cases[id], who)
    ensures k <= i && Takes(x, i, id, who)
    ensures Same(x.at(k).cases[id], x.at(i).cases[id], who)
    decreases j - k
  {
    SaneAt(x, courts, id, k);
    assert Follows(x, k);
    if OwnStepAt(x, k, id, who) {
      TakesStep(x, k, id, who);
      i := k;
    } else {
      if k == j { UnfinishedMoves(x.at(k), id, who); }
      OthersStep(x.at(k), x.step(k), id, who);
      i := NextStep(x, courts, id, who, k + 1, j);
    }
  }

  lemma ServedNext(x: Schedule, courts: map<CaseId, bool>, id: CaseId, who: Goroutine, k: nat) returns (i: nat)
    requires Runs(x, courts) && id in courts && FairTo(x, id, who)
    requires id in x.at(k).cases && Unfinished(x.at(k).cases[id], who)
    ensures k <= i && Takes(x, i, id, who)
    ensures Same(x.at(k).cases[id], x.at(i).cases[id], who)
  {
    assert ServedSince(x, k, id, who);
    var j: nat :| k <= j && Served(x, j, id, who);
    i := NextStep(x, courts, id, who, k, j);
  }

  function Weight(c: C.CaseState, who: Goroutine): nat {
    match who
    case Call(t) => if t in c.triggers then TriggerWeight(c.triggers[t]) else 0
    case Work(w) => if w in c.workers then L.WorkerWeight(c.workers[w]) else 0
  }

  lemma OwnStepWeight(c: C.CaseState, a: C.Action, who: Goroutine)
    requires P.Shape(c) && C.Enabled(c, a) && Own(a, who)
    ensures Weight(C.Exec(c, a), who) < Weight(c, who)
  {
    match who
    case Call(t) => TriggerStepWeight(c, a, t);
    case Work(w) => L.WorkerStep(c, a, w);
  }

  /** At moment `i` the goroutine takes its last step. */
  ghost predicate EndsAt(x: Schedule, i: nat, id: CaseId, who: Goroutine) {
    && Takes(x, i, id, who)
    && Unfinished(x.at(i).cases[id], who) && !Unfinished(x.at(i + 1).cases[id], who)
  }

  /** Every call in progress and every worker comes to its end, whatever the services answer
      and however many calls keep arriving, provided the scheduler is fair to that one
      goroutine. */
  lemma {:induction false} GoroutineEnds(x: Schedule, courts: map<CaseId, bool>, id: CaseId, who: Goroutine, k: nat)
    returns (i: nat)
    requires Runs(x, courts) && id in courts && FairTo(x, id, who)
    requires id in x.at(k).cases && Unfinished(x.at(k).cases[id], who)
    ensures k <= i && EndsAt(x, i, id, who)
    decreases Weight(x.at(k).cases[id], who)
  {
    i := ServedNext(x, courts, id, who, k);
    OwnStepWeight(x.at(i).cases[id], x.step(i).a, who);
    if Unfinished(x.at(i + 1).cases[id], who) { i := GoroutineEnds(x, courts, id, who, i + 1); }
  }

  /** A worker ends by completing the run. */
  lemma LastStepCompletes(c: C.CaseState, a: C.Action, w: nat)
    requires P.Shape(c) && C.Enabled(c, a) && L.StepOf(a, w)
    requires Unfinished(c, Work(w)) && !Unfinished(C.Exec(c, a), Work(w))
    ensures C.Exec(c, a).run.Some? && NotPending(C.Exec(c, a))
  {
    assert P.WorkerFits(c, c.workers[w]);
  }

  /** What a call about to launch its worker does next. */
  lemma NextOfLaunch(c: C.CaseState, a: C.Action, t: nat)
    requires C.Enabled(c, a) && Own(a, Call(t)) && t in c.triggers && C.AboutToLaunch(c.triggers[t])
    ensures var c' := C.Exec(c, a);
            if a.Spawn? then Unfinished(c', Work(a.w)) else t in c'.triggers && C.AboutToLaunch(c'.triggers[t])
  {}

  /** A call past its commit or its reset gets to launch its worker. */
  lemma {:induction false} Launches(x: Schedule, courts: map<CaseId, bool>, id: CaseId, t: nat, k: nat)
    returns (i: nat, w: nat)
    requires Runs(x, courts) && id in courts && FairTo(x, id, Call(t)) && id in x.at(k).cases
    requires t in x.at(k).cases[id].triggers && C.AboutToLaunch(x.at(k).cases[id].triggers[t])
    ensures k <= i && id in x.at(i).cases && Unfinished(x.at(i).cases[id], Work(w))
    decreases Weight(x.at(k).cases[id], Call(t))
  {
    i := ServedNext(x, courts, id, Call(t), k);
    var c, a := x.at(i).cases[id], x.step(i).a;
    NextOfLaunch(c, a, t);
    if a.Spawn? {
      i, w := i + 1, a.w;
    } else {
      OwnStepWeight(c, a, Call(t));
      i, w := Launches(x, courts, id, t, i + 1);
    }
  }

  /** Whoever owns the pending run, there is or will be a worker on it. */
  lemma WorkerComes(x: Schedule, courts: map<CaseId, bool>, id: CaseId, k: nat) returns (i: nat, w: nat)
    requires Runs(x, courts) && id in courts && Fair(x, id)
    requires id in x.at(k).cases && P.PendingOwned(x.at(k).cases[id]) && !NotPending(x.at(k).cases[id])
    ensures k <= i && id in x.at(i).cases && Unfinished(x.at(i).cases[id], Work(w))
  {
    var c := x.at(k).cases[id];
    if t: nat :| t in c.triggers && C.AboutToLaunch(c.triggers[t]) {
      assert FairTo(x, id, Call(t));
      i, w := Launches(x, courts, id, t, k);
    } else {
      i := k;
      w :| w in c.workers && C.Live(c.workers[w]);
    }
  }

  /** Along every fair schedule every pending run is completed, however calls for the case
      overlap and however many keep arriving. */
  lemma EveryPendingRunCompletes(x: Schedule, courts: map<CaseId, bool>, id: CaseId, k: nat) returns (i: nat)
    requires Runs(x, courts) && id in courts && Fair(x, id)
    requires id in x.at(k).cases && !NotPending(x.at(k).cases[id])
    ensures k <= i && id in x.at(i).cases && x.at(i).cases[id].run.Some? && NotPending(x.at(i).cases[id])
  {
    SaneAt(x, courts, id, k);
    assert P.Unrestricted(x.at(k).cases[id]);
    var w;
    i, w := WorkerComes(x, courts, id, k);
    assert FairTo(x, id, Work(w));
    i := GoroutineEnds(x, courts, id, Work(w), i);
    LastStepCompletes(x.at(i).cases[id], x.step(i).a, w);
    i := i + 1;
  }

  // -------------------------------------------------------------------------
  // Once calls have stopped arriving
  // -------------------------------------------------------------------------

  predicate CaseStepAt(x: Schedule, k: nat, id: CaseId) {
    x.step(k).CaseStep? && x.step(k).id == id
  }

  /** No call of `TriggerLookup` for the case from that moment on. */
  ghost predicate LastCallBefore(x: Schedule, n: nat, id: CaseId) {
    forall k: nat :: k >= n && CaseStepAt(x, k, id) ==> !x.step(k).a.Arrive?
  }

  /** The case's budget along the schedule, once calls have stopped arriving. */
  lemma MeasureAt(x: Schedule, courts: map<CaseId, bool>, id: CaseId, n: nat, k: nat)
    requires Runs(x, courts) && id in courts && LastCallBefore(x, n, id) && k >= n
    ensures id in x.at(k).cases && id in x.at(k + 1).cases
    ensures CaseMeasure(x.at(k + 1).cases[id]) + (if CaseStepAt(x, k, id) then 1 else 0)
            <= CaseMeasure(x.at(k).cases[id])
  {
    SaneAt(x, courts, id, k);
    assert Follows(x, k);
    assert P.Unrestricted(x.at(k).cases[id]);
    if CaseStepAt(x, k, id) { CaseStepDecreases(x.at(k).cases[id], x.step(k).a); }
  }

  lemma {:induction false} MeasureFalls(x: Schedule, courts: map<CaseId, bool>, id: CaseId, n: nat, j: nat, k: nat)
    requires Runs(x, courts) && id in courts && LastCallBefore(x, n, id) && n <= j <= k
    ensures id in x.at(j).cases && id in x.at(k).cases
    ensures CaseMeasure(x.at(k).cases[id]) <= CaseMeasure(x.at(j).cases[id])
    decreases k - j
  {
    MeasureAt(x, courts, id, n, j);
    if j < k { MeasureFalls(x, courts, id, n, j + 1, k); }
  }

  /** As long as the case is not dead, some of its budget is still going to be used. */
  lemma BudgetUsed(x: Schedule, courts: map<CaseId, bool>, id: CaseId, n: nat, k: nat) returns (j: nat)
    requires Runs(x, courts) && id in courts && LastCallBefore(x, n, id) && Fair(x, id) && k >= n
    requires id in x.at(k).cases && !Dead(x.at(k).cases[id])
    ensures j > k && id in x.at(j).cases && CaseMeasure(x.at(j).cases[id]) < CaseMeasure(x.at(k).cases[id])
  {
    var who := SomebodyLeft(x.at(k).cases[id]);
    assert FairTo(x, id, who);
    j := ServedNext(x, courts, id, who, k);
    StepUsesBudget(x, courts, id, n, k, j);
    j := j + 1;
  }

  lemma StepUsesBudget(x: Schedule, courts: map<CaseId, bool>, id: CaseId, n: nat, k: nat, j: nat)
    requires Runs(x, courts) && id in courts && LastCallBefore(x, n, id) && n <= k <= j && CaseStepAt(x, j, id)
    ensures id in x.at(k).cases && id in x.at(j + 1).cases
    ensures CaseMeasure(x.at(j + 1).cases[id]) < CaseMeasure(x.at(k).cases[id])
  {
    MeasureFalls(x, courts, id, n, k, j);
    MeasureAt(x, courts, id, n, j);
  }

  /** The budget runs out, and then the case is dead. */
  lemma {:induction false} Dies(x: Schedule, courts: map<CaseId, bool>, id: CaseId, n: nat, k: nat) returns (j: nat)
    requires Runs(x, courts) && id in courts && LastCallBefore(x, n, id) && Fair(x, id) && k >= n
    requires id in x.at(k).cases
    ensures j >= k && id in x.at(j).cases && Dead(x.at(j).cases[id])
    decreases CaseMeasure(x.at(k).cases[id])
  {
    j := k;
    if !Dead(x.at(k).cases[id]) {
      j := BudgetUsed(x, courts, id, n, k);
      j := Dies(x, courts, id, n, j);
    }
  }

  /** A dead case stays as it is until a call arrives. */
  lemma DeadNext(x: Schedule, id: CaseId, n: nat, k: nat)
    requires AllFollow(x) && LastCallBefore(x, n, id) && k >= n
    requires id in x.at(k).cases && Dead(x.at(k).cases[id])
    ensures id in x.at(k + 1).cases && x.at(k + 1).cases[id] == x.at(k).cases[id]
  {
    assert Follows(x, k);
    if CaseStepAt(x, k, id) { DeadHasNoSteps(x.at(k).cases[id], x.step(k).a); }
  }

  lemma {:induction false} DeadForGood(x: Schedule, courts: map<CaseId, bool>, id: CaseId, n: nat, j: nat, k: nat)
    requires Runs(x, courts) && LastCallBefore(x, n, id) && n <= j <= k
    requires id in x.at(j).cases && Dead(x.at(j).cases[id])
    ensures id in x.at(k).cases && x.at(k).cases[id] == x.at(j).cases[id]
    decreases k
  {
    if j < k {
      DeadForGood(x, courts, id, n, j, k - 1);
      DeadNext(x, id, n, k - 1);
    }
  }

  /** The case has come to rest in this state. */
  ghost predicate AtRest(x: Schedule, id: CaseId, c: C.CaseState, k: nat) {
    id in x.at(k).cases && x.at(k).cases[id] == c
  }

  /** Along every fair schedule, whatever the services answer and however the calls for the
      case overlapped: once they have stopped arriving, the case comes to rest with every
      call answered, every worker gone, and its run, if there is one, not pending. */
  lemma EveryRunCompletes(x: Schedule, courts: map<CaseId, bool>, id: CaseId, n: nat)
    returns (c: C.CaseState, j: nat)
    requires Runs(x, courts) && id in courts && Fair(x, id) && LastCallBefore(x, n, id)
    ensures forall k: nat :: k >= j ==> AtRest(x, id, c, k)
    ensures Dead(c) && NotPending(c)
  {
    SaneAt(x, courts, id, n);
    j := Dies(x, courts, id, n, n);
    SaneAt(x, courts, id, j);
    c := x.at(j).cases[id];
    assert P.Unrestricted(c);
    DeadIsNotPending(c);
    forall k: nat | k >= j
      ensures AtRest(x, id, c, k)
    {
      DeadForGood(x, courts, id, n, j, k);
    }
  }
}

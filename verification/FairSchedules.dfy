/** Fair schedules exist, with calls that stop arriving and with calls that never do. */
module FairSchedules {
  import opened Types
  import opened Gateway
  import opened GatewayBounds
  import opened GatewayBudgets
  import opened GatewayFairness
  import C = LookupCase

  // -------------------------------------------------------------------------
  // Plans
  // -------------------------------------------------------------------------

  /** There is a token, and still nothing the case could do. */
  ghost predicate Resting(g: Gateway, id: CaseId) {
    Sane(g, id) && g.limiter.bucket > 0 && Quiescent(g, id)
  }

  ghost predicate CallComes(todo: seq<Action>, id: CaseId) {
    todo != [] && todo[0].CaseStep? && todo[0].id == id && todo[0].a.Arrive?
  }

  /** One more call for the case, and all that follows from it. */
  ghost predicate OneMoreCall(g: Gateway, id: CaseId, acts: seq<Action>) {
    && Legal(g, acts) && Resting(ExecAll(g, acts), id)
    && CallComes(acts, id)
  }

  ghost predicate CanCall(g: Gateway, id: CaseId) {
    exists acts :: OneMoreCall(g, id, acts)
  }

  lemma CallsCome(g: Gateway, id: CaseId)
    requires Sane(g, id)
    ensures CanCall(g, id)
  {
    var acts, g' := Arrival(g, id);
    acts, g' := RunsOut(g, acts, g', id);
    assert OneMoreCall(g, id, acts);
  }

  lemma Arrival(g: Gateway, id: CaseId) returns (acts: seq<Action>, g': Gateway)
    requires Sane(g, id)
    ensures Path(g, acts, g') && Sane(g', id) && CallComes(acts, id)
  {
    var t := C.Unused(g.cases[id].triggers.Keys);
    acts, g' := Then(g, [], g, CaseStep(id, C.Arrive(t)));
    InvStep(g, CaseStep(id, C.Arrive(t)));
  }

  /** The state of the gateway, and the steps decided on so far. */
  datatype Plan = Plan(g: Gateway, todo: seq<Action>)

  ghost predicate Sound(p: Plan, id: CaseId) {
    Sane(p.g, id) && Legal(p.g, p.todo) && Resting(ExecAll(p.g, p.todo), id)
  }

  ghost function NextOf(p: Plan): Action {
    if p.todo == [] then Elapse(0) else p.todo[0]
  }

  /** When nothing is left to do, time stands still for one step; then another call comes,
      or time goes on standing still. */
  ghost function Onwards(p: Plan, id: CaseId, again: bool): Plan
    requires Sound(p, id)
  {
    if p.todo != [] then Plan(Exec(p.g, p.todo[0]), p.todo[1..])
    else if again then
      CallsCome(p.g, id);
      var acts :| OneMoreCall(p.g, id, acts);
      Plan(p.g, acts)
    else p
  }

  lemma TimeStandsStill(g: Gateway)
    ensures Enabled(g, Elapse(0)) && Exec(g, Elapse(0)) == g
  {}

  lemma OnwardsFollows(p: Plan, id: CaseId, again: bool)
    requires Sound(p, id)
    ensures Sound(Onwards(p, id, again), id)
    ensures Enabled(p.g, NextOf(p)) && Onwards(p, id, again).g == Exec(p.g, NextOf(p))
  {
    if p.todo == [] { TimeStandsStill(p.g); } else { InvStep(p.g, p.todo[0]); }
  }

  ghost function PlanAt(p: Plan, id: CaseId, again: bool, k: nat): (q: Plan)
    requires Sound(p, id)
    ensures Sound(q, id)
  {
    if k == 0 then p
    else
      OnwardsFollows(PlanAt(p, id, again, k - 1), id, again);
      Onwards(PlanAt(p, id, again, k - 1), id, again)
  }

  lemma NextPlan(p: Plan, id: CaseId, again: bool, k: nat)
    requires Sound(p, id)
    ensures var before, after := PlanAt(p, id, again, k).todo, PlanAt(p, id, again, k + 1).todo;
            if before != [] then after == before[1..]
            else if again then CallComes(after, id)
            else after == []
  {}

  ghost function Unroll(p: Plan, id: CaseId, again: bool): Schedule
    requires Sound(p, id)
  {
    Schedule((k: nat) => PlanAt(p, id, again, k).g, (k: nat) => NextOf(PlanAt(p, id, again, k)))
  }

  lemma UnrollFollows(p: Plan, id: CaseId, again: bool)
    requires Sound(p, id)
    ensures AllFollow(Unroll(p, id, again)) && Unroll(p, id, again).at(0) == p.g
  {
    var x := Unroll(p, id, again);
    forall k: nat
      ensures Follows(x, k)
    {
      OnwardsFollows(PlanAt(p, id, again, k), id, again);
    }
  }

  // -------------------------------------------------------------------------
  // They are fair
  // -------------------------------------------------------------------------

  /** What has been decided on gets done. */
  lemma {:induction false} Drains(todo: nat -> seq<Action>, k: nat) returns (j: nat)
    requires forall i: nat :: todo(i) != [] ==> todo(i + 1) == todo(i)[1..]
    ensures k <= j && todo(j) == []
    decreases |todo(k)|
  {
    j := k;
    if todo(k) != [] { j := Drains(todo, k + 1); }
  }

  lemma {:induction false} StaysEmpty(todo: nat -> seq<Action>, n: nat, k: nat)
    requires todo(n) == [] && n <= k && forall i: nat :: todo(i) == [] ==> todo(i + 1) == []
    ensures todo(k) == []
  {
    if k > n { StaysEmpty(todo, n, k - 1); }
  }

  lemma NothingLeft(p: Plan, id: CaseId, again: bool, k: nat) returns (j: nat)
    requires Sound(p, id)
    ensures k <= j && PlanAt(p, id, again, j).todo == []
  {
    ghost var todo := (i: nat) => PlanAt(p, id, again, i).todo;
    forall i: nat | todo(i) != []
      ensures todo(i + 1) == todo(i)[1..]
    {
      NextPlan(p, id, again, i);
    }
    j := Drains(todo, k);
  }

  lemma UnrollFair(p: Plan, id: CaseId, again: bool)
    requires Sound(p, id)
    ensures Fair(Unroll(p, id, again), id)
  {
    var x := Unroll(p, id, again);
    forall who: Goroutine, from: nat
      ensures ServedSince(x, from, id, who)
    {
      var j := NothingLeft(p, id, again, from);
      assert Resting(x.at(j), id);
      assert Served(x, j, id, who);
    }
  }

  lemma {:induction false} OneByOne(todo: nat -> seq<Action>, k: nat)
    requires k <= |todo(0)| && forall i: nat :: todo(i) != [] ==> todo(i + 1) == todo(i)[1..]
    ensures todo(k) == todo(0)[k..]
  {
    if k > 0 {
      OneByOne(todo, k - 1);
      assert todo(0)[k - 1..][1..] == todo(0)[k..];
    }
  }

  lemma Decided(p: Plan, id: CaseId, again: bool, k: nat)
    requires Sound(p, id) && k <= |p.todo|
    ensures PlanAt(p, id, again, k).todo == p.todo[k..]
  {
    ghost var todo := (i: nat) => PlanAt(p, id, again, i).todo;
    forall i: nat | todo(i) != []
      ensures todo(i + 1) == todo(i)[1..]
    {
      NextPlan(p, id, again, i);
    }
    OneByOne(todo, k);
  }

  lemma StandsStill(p: Plan, id: CaseId, k: nat)
    requires Sound(p, id) && k >= |p.todo|
    ensures PlanAt(p, id, false, k).todo == []
  {
    ghost var todo := (i: nat) => PlanAt(p, id, false, i).todo;
    forall i: nat | todo(i) == []
      ensures todo(i + 1) == []
    {
      NextPlan(p, id, false, i);
    }
    Decided(p, id, false, |p.todo|);
    StaysEmpty(todo, |p.todo|, k);
  }

  /** A finite run, and the end of what it has begun. */
  lemma Continued(courts: map<CaseId, bool>, acts: seq<Action>, id: CaseId) returns (p: Plan)
    requires Legal(Started(courts), acts) && id in courts
    ensures p.g == Started(courts) && Sound(p, id) && acts <= p.todo
  {
    var g0 := Started(courts);
    StartedInv(courts);
    InvAlways(g0, acts);
    CaseProjection(g0, acts, id);
    var all, g := RunsOut(g0, acts, ExecAll(g0, acts), id);
    p := Plan(g0, all);
  }

  lemma Begins(p: Plan, id: CaseId, again: bool, acts: seq<Action>)
    requires Sound(p, id) && acts <= p.todo
    ensures forall k: nat :: k < |acts| ==> Unroll(p, id, again).step(k) == acts[k]
  {
    forall k: nat | k < |acts|
      ensures Unroll(p, id, again).step(k) == acts[k]
    {
      Decided(p, id, again, k);
    }
  }

  /** Every finite run, whatever the services have answered and however calls overlapped so
      far, continues as a fair schedule in which no more calls arrive. */
  lemma FairSchedulesExist(courts: map<CaseId, bool>, acts: seq<Action>, id: CaseId)
    returns (x: Schedule, n: nat)
    requires Legal(Started(courts), acts) && id in courts
    ensures Runs(x, courts) && Fair(x, id) && LastCallBefore(x, n, id)
    ensures forall k: nat :: k < |acts| ==> x.step(k) == acts[k]
  {
    var p := Continued(courts, acts, id);
    x, n := Unroll(p, id, false), |p.todo|;
    UnrollFollows(p, id, false);
    UnrollFair(p, id, false);
    Begins(p, id, false, acts);
    forall k: nat | k >= n
      ensures !CaseStepAt(x, k, id)
    {
      StandsStill(p, id, k);
    }
  }

  ghost predicate CallSince(x: Schedule, from: nat, id: CaseId) {
    exists j: nat :: from <= j && CaseStepAt(x, j, id) && x.step(j).a.Arrive?
  }

  lemma CallAfterRest(p: Plan, id: CaseId, x: Schedule, j: nat)
    requires Sound(p, id) && x == Unroll(p, id, true) && PlanAt(p, id, true, j).todo == []
    ensures CaseStepAt(x, j + 1, id) && x.step(j + 1).a.Arrive?
  {
    NextPlan(p, id, true, j);
  }

  lemma CallComesSince(p: Plan, id: CaseId, x: Schedule, from: nat)
    requires Sound(p, id) && x == Unroll(p, id, true)
    ensures CallSince(x, from, id)
  {
    var j := NothingLeft(p, id, true, from);
    CallAfterRest(p, id, x, j);
  }

  /** And as a fair schedule in which calls for the case never stop arriving. */
  lemma EndlessSchedulesExist(courts: map<CaseId, bool>, acts: seq<Action>, id: CaseId) returns (x: Schedule)
    requires Legal(Started(courts), acts) && id in courts
    ensures Runs(x, courts) && Fair(x, id) && forall from: nat :: CallSince(x, from, id)
    ensures forall k: nat :: k < |acts| ==> x.step(k) == acts[k]
  {
    var p := Continued(courts, acts, id);
    x := Unroll(p, id, true);
    UnrollFollows(p, id, true);
    UnrollFair(p, id, true);
    Begins(p, id, true, acts);
    forall from: nat
      ensures CallSince(x, from, id)
    {
      CallComesSince(p, id, x, from);
    }
  }
}

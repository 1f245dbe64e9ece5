/** The guarantees of the lookup protocol, and the end of a breaker, in the composed system. */
module GatewayGuarantees {
  import opened Types
  import opened Gateway
  import opened GatewayBounds
  import C = LookupCase
  import CB = CircuitBreaker
  import L = LookupGuarantees
  import M = LookupModes
  import O = LookupRace
  import R = RetriggerSteps

  /** Every guarantee of the lookup protocol holds in the composed system: its cases only
      ever reach states the protocol reaches on its own. */
  lemma CasesAreReached(courts: map<CaseId, bool>, acts: seq<Action>, id: CaseId)
    requires id in courts && Legal(Started(courts), acts) && AlwaysApart(Started(courts), acts, id)
    ensures id in ExecAll(Started(courts), acts).cases
    ensures L.Reached(ExecAll(Started(courts), acts).cases[id])
  {
    var g := Started(courts);
    CaseProjection(g, acts, id);
    var run := CaseRun(acts, id);
    L.SameCourt(g.cases[id], run);
    assert L.ReachedBy(ExecAll(g, acts).cases[id], run);
  }

  // -------------------------------------------------------------------------
  // The exact hypothesis of one owner per run
  // -------------------------------------------------------------------------

  /** No call for the case reads its run any more. */
  ghost predicate NoMoreReads(acts: seq<Action>, id: CaseId) {
    forall a <- acts :: a.CaseStep? && a.id == id ==> !a.a.ReadRun?
  }

  ghost predicate SharedIn(g: Gateway, id: CaseId) {
    id in g.cases && O.Shared(g.cases[id])
  }

  ghost predicate CanShare(g: Gateway, id: CaseId) {
    exists acts, g' :: Path(g, acts, g') && NoMoreReads(acts, id) && SharedIn(g', id)
  }

  /** Steps of calls touch nothing shared, so nothing in the gateway can refuse them. */
  lemma {:induction false} CallsLift(g: Gateway, id: CaseId, run: seq<C.Action>) returns (acts: seq<Action>)
    requires id in g.cases && C.Legal(g.cases[id], run) && forall a <- run :: !a.TaskStep? && !a.ReadRun?
    ensures Legal(g, acts) && NoMoreReads(acts, id)
    ensures id in ExecAll(g, acts).cases && ExecAll(g, acts).cases[id] == C.ExecAll(g.cases[id], run)
    decreases |run|
  {
    acts := [];
    if run != [] {
      assert run[0] in run && forall a <- run[1..] :: a in run;
      var step := CaseStep(id, run[0]);
      var rest := CallsLift(Exec(g, step), id, run[1..]);
      acts := [step] + rest;
      assert acts[0] == step && acts[1..] == rest;
    }
  }

  lemma {:induction false} NoReadsInCase(acts: seq<Action>, id: CaseId)
    requires NoMoreReads(acts, id)
    ensures forall a <- CaseRun(acts, id) :: !a.ReadRun?
  {
    if acts != [] {
      assert acts[0] in acts && forall a <- acts[1..] :: a in acts;
      NoReadsInCase(acts[1..], id);
    }
  }

  lemma ApartNeverShares(g: Gateway, id: CaseId, m: M.Mode)
    requires id in g.cases && M.InMode(g.cases[id], m) && C.Apart(g.cases[id])
    ensures !CanShare(g, id)
  {
    forall acts, g' | Path(g, acts, g') && NoMoreReads(acts, id)
      ensures !SharedIn(g', id)
    {
      CaseProjection(g, acts, id);
      NoReadsInCase(acts, id);
      assert R.Onward(g.cases[id], CaseRun(acts, id), g'.cases[id]);
      O.ApartIsSafe(g.cases[id], m);
    }
  }

  lemma OverlapCanShare(g: Gateway, id: CaseId, m: M.Mode, a: C.Action)
    requires Enabled(g, CaseStep(id, a)) && M.InMode(g.cases[id], m)
    requires C.Apart(g.cases[id]) && !C.Apart(C.Exec(g.cases[id], a))
    ensures CanShare(Exec(g, CaseStep(id, a)), id)
  {
    var run, both, ts := O.OverlapShares(g.cases[id], m, a);
    var g1 := Exec(g, CaseStep(id, a));
    var acts := CallsLift(g1, id, run);
    assert Path(g1, acts, ExecAll(g1, acts)) && SharedIn(ExecAll(g1, acts), id);
  }

  /** In the gateway with its breakers and its limiter too: at any point of a run without
      overlapping re-triggers of the case, its next step keeps them apart if and only if,
      without any further call for it reading the run, its pending run cannot come to have
      two owners. */
  lemma OverlapIsTheSharingStep(courts: map<CaseId, bool>, acts: seq<Action>, id: CaseId, a: C.Action)
    requires id in courts && Legal(Started(courts), acts) && AlwaysApart(Started(courts), acts, id)
    requires Enabled(ExecAll(Started(courts), acts), CaseStep(id, a))
    ensures var g := ExecAll(Started(courts), acts);
            C.Apart(C.Exec(g.cases[id], a)) <==> !CanShare(Exec(g, CaseStep(id, a)), id)
  {
    var g := ExecAll(Started(courts), acts);
    CasesAreReached(courts, acts, id);
    var m := L.ReachedMode(g.cases[id]);
    O.ReachedIsApart(g.cases[id]);
    if C.Apart(C.Exec(g.cases[id], a)) {
      M.ModeStep(g.cases[id], m, a);
      ApartNeverShares(Exec(g, CaseStep(id, a)), id, M.NextMode(g.cases[id], m, a));
    } else {
      OverlapCanShare(g, id, m, a);
    }
  }

  // -------------------------------------------------------------------------
  // A stranded breaker
  // -------------------------------------------------------------------------

  /** A task of source `s` that the breaker lets through. */
  predicate Admission(a: Action, s: Source) {
    a.CaseStep? && a.a.TaskStep? && a.a.source == s && a.a.a.Ask? && a.a.a.ok
  }

  lemma StrandedStep(g: Gateway, a: Action, s: Source)
    requires Enabled(g, a) && CB.Stranded(g.ledgers.At(s))
    ensures CB.Stranded(Exec(g, a).ledgers.At(s)) && !Admission(a, s)
    ensures Exec(g, a).ledgers.At(s).admitted == g.ledgers.At(s).admitted
  {
    LedgerStep(g, a, s);
  }

  lemma {:induction false} StrandedFrom(g: Gateway, acts: seq<Action>, s: Source)
    requires Legal(g, acts) && CB.Stranded(g.ledgers.At(s))
    ensures CB.Stranded(ExecAll(g, acts).ledgers.At(s)) && forall a <- acts :: !Admission(a, s)
    ensures ExecAll(g, acts).ledgers.At(s).admitted == g.ledgers.At(s).admitted
    decreases |acts|
  {
    if acts != [] {
      StrandedStep(g, acts[0], s);
      StrandedFrom(Exec(g, acts[0]), acts[1..], s);
      assert acts == [acts[0]] + acts[1..];
    }
  }

  /** One health query for an idle source whose cooldown is over is enough for that. */
  lemma HealthEndsSource(courts: map<CaseId, bool>, before: seq<Action>, acts: seq<Action>, s: Source)
    requires Legal(Started(courts), before)
    requires var g := ExecAll(Started(courts), before);
             && TasksInFlight(g, s) == {} && CB.Cooled(g.ledgers.At(s).b, g.ledgers.At(s).now)
             && Enabled(g, Health(s)) && Legal(Exec(g, Health(s)), acts)
    ensures forall a <- acts :: !Admission(a, s)
  {
    var g := ExecAll(Started(courts), before);
    StartedInv(courts);
    InvAlways(Started(courts), before);
    FlightsAreBooked(g, s);
    LedgerStep(g, Health(s), s);
    StrandedFrom(Exec(g, Health(s)), acts, s);
  }

  /** A half-open breaker with no task in flight has ended its source for every case: none
      of the tasks to come, of whatever case, is admitted, and none ever is in flight. */
  lemma SourceEndsForAll(courts: map<CaseId, bool>, before: seq<Action>, acts: seq<Action>, s: Source)
    requires Legal(Started(courts), before) && Legal(ExecAll(Started(courts), before), acts)
    requires var g := ExecAll(Started(courts), before);
             g.ledgers.At(s).b.state.HalfOpen? && TasksInFlight(g, s) == {}
    ensures forall a <- acts :: !Admission(a, s)
    ensures var g := ExecAll(Started(courts), before);
            && TasksInFlight(ExecAll(g, acts), s) == {}
            && ExecAll(g, acts).ledgers.At(s).admitted == g.ledgers.At(s).admitted
  {
    var g := ExecAll(Started(courts), before);
    StartedInv(courts);
    InvAlways(Started(courts), before);
    InvAlways(g, acts);
    FlightsAreBooked(g, s);
    StrandedFrom(g, acts, s);
    FlightsAreBooked(ExecAll(g, acts), s);
  }
}

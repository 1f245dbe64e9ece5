/** What the breakers of the running gateway are told, counted from the rows of the tasks. */
module GatewayReports {
  import opened Types
  import opened Gateway
  import opened GatewayBounds
  import C = LookupCase
  import P = LookupProtocol
  import T = SourceTask
  import CB = CircuitBreaker
  import RL = RateLimiter

  // -------------------------------------------------------------------------
  // Counting along a run
  // -------------------------------------------------------------------------

  predicate StepOf(a: Action, s: Source) {
    a.CaseStep? && a.a.TaskStep? && a.a.source == s
  }

  /** A task for `s` reports, and this is the status of the row it is about to write. */
  predicate Tells(g: Gateway, a: Action, s: Source, status: SourceStatus)
    requires Enabled(g, a)
  {
    && StepOf(a, s) && a.a.a.Tell?
    && var t := C.TaskOf(g.cases[a.id], a.a.w, s);
       t.pc.Reporting? && t.pc.row.status == status
  }

  predicate Admits(a: Action, s: Source) {
    StepOf(a, s) && a.a.a == T.Ask(true)
  }

  predicate TimesOut(a: Action, s: Source) {
    StepOf(a, s) && a.a.a.Expire?
  }

  /** The reports of source `s` along a run, in their order: true for a row that succeeded. */
  ghost function Reports(g: Gateway, acts: seq<Action>, s: Source): seq<bool>
    requires Legal(g, acts)
    decreases |acts|
  {
    if acts == [] then []
    else
      (if Tells(g, acts[0], s, SSuccess) then [true] else if Tells(g, acts[0], s, SFailed) then [false] else [])
      + Reports(Exec(g, acts[0]), acts[1..], s)
  }

  function Count(bs: seq<bool>, b: bool): nat {
    if bs == [] then 0 else (if bs[0] == b then 1 else 0) + Count(bs[1..], b)
  }

  function Admissions(acts: seq<Action>, s: Source): nat {
    if acts == [] then 0 else T.Indicator(Admits(acts[0], s)) + Admissions(acts[1..], s)
  }

  function Timeouts(acts: seq<Action>, s: Source): nat {
    if acts == [] then 0 else T.Indicator(TimesOut(acts[0], s)) + Timeouts(acts[1..], s)
  }

  /** Time that passes along a run. */
  function Elapsed(acts: seq<Action>): nat {
    if acts == [] then 0 else (if acts[0].Elapse? then acts[0].d else 0) + Elapsed(acts[1..])
  }

  /** Failures in a row, `n` of them before the run. */
  function Streak(n: int, bs: seq<bool>): int
    decreases |bs|
  {
    if bs == [] then n else Streak(if bs[0] then 0 else n + 1, bs[1..])
  }

  // -------------------------------------------------------------------------
  // The books
  // -------------------------------------------------------------------------

  lemma ReportTellsRow(t: T.Task)
    requires T.TaskInv(t)
    ensures t.pc.Reporting? ==> t.pc.row.status == if t.pc.ok then SSuccess else SFailed
  {}

  /** What a step is for the breaker of `s`. */
  lemma EventTells(g: Gateway, a: Action, s: Source)
    requires Enabled(g, a) && (a.CaseStep? ==> P.Shape(g.cases[a.id]))
    ensures var e := LedgerEvent(g, a, s);
            && (Admits(a, s) <==> e.Some? && e.value.Ask? && e.value.ok)
            && (Tells(g, a, s, SSuccess) <==> e.Some? && e.value.Report? && e.value.ok)
            && (Tells(g, a, s, SFailed) <==> e.Some? && e.value.Report? && !e.value.ok)
            && (TimesOut(a, s) <==> e.Some? && e.value.Abandon?)
            && (a.Elapse? <==> e.Some? && e.value.Elapse?)
            && (a.Elapse? ==> e.value.d == a.d)
  {
    if StepOf(a, s) {
      P.TaskStepKeepsWorkers(g.cases[a.id], a.a.w, s, a.a.a);
      ReportTellsRow(C.TaskOf(g.cases[a.id], a.a.w, s));
    }
  }

  /** What that is in the books. */
  lemma EventBooks(l: CB.Ledger, e: CB.Event)
    ensures var l' := CB.Next(l, e);
            && l'.admitted == l.admitted + T.Indicator(e.Ask? && e.ok)
            && l'.successes == l.successes + T.Indicator(e.Report? && e.ok)
            && l'.failures == l.failures + T.Indicator(e.Report? && !e.ok)
            && l'.abandoned == l.abandoned + T.Indicator(e.Abandon?)
            && l'.now == l.now + (if e.Elapse? then e.d else 0)
            && l'.b.failures == (if e.Report? && e.ok then 0 else l.b.failures + T.Indicator(e.Report?))
  {}

  lemma StepBooks(g: Gateway, a: Action, s: Source)
    requires Enabled(g, a) && (a.CaseStep? ==> P.Shape(g.cases[a.id]))
    ensures var l, l' := g.ledgers.At(s), Exec(g, a).ledgers.At(s);
            && l'.admitted == l.admitted + T.Indicator(Admits(a, s))
            && l'.successes == l.successes + T.Indicator(Tells(g, a, s, SSuccess))
            && l'.failures == l.failures + T.Indicator(Tells(g, a, s, SFailed))
            && l'.abandoned == l.abandoned + T.Indicator(TimesOut(a, s))
            && l'.now == l.now + (if a.Elapse? then a.d else 0)
            && l'.b.failures == (if Tells(g, a, s, SSuccess) then 0
                                 else l.b.failures + T.Indicator(Tells(g, a, s, SFailed)))
  {
    var e := LedgerEvent(g, a, s);
    EventTells(g, a, s);
    LedgerStep(g, a, s);
    if e.Some? { EventBooks(g.ledgers.At(s), e.value); }
  }

  ghost predicate Booked(l: CB.Ledger, l': CB.Ledger, acts: seq<Action>, told: seq<bool>, s: Source) {
    && l'.admitted == l.admitted + Admissions(acts, s)
    && l'.successes == l.successes + Count(told, true)
    && l'.failures == l.failures + Count(told, false)
    && l'.abandoned == l.abandoned + Timeouts(acts, s)
    && l'.now == l.now + Elapsed(acts)
    && l'.b.failures == Streak(l.b.failures, told)
  }

  /** One more step in front. */
  lemma BookedBefore(g: Gateway, acts: seq<Action>, s: Source, last: CB.Ledger)
    requires acts != [] && Legal(g, acts) && (acts[0].CaseStep? ==> P.Shape(g.cases[acts[0].id]))
    requires Booked(Exec(g, acts[0]).ledgers.At(s), last, acts[1..], Reports(Exec(g, acts[0]), acts[1..], s), s)
    ensures Booked(g.ledgers.At(s), last, acts, Reports(g, acts, s), s)
  {
    StepBooks(g, acts[0], s);
    var rest := Reports(Exec(g, acts[0]), acts[1..], s);
    if Tells(g, acts[0], s, SSuccess) {
      assert Reports(g, acts, s) == [true] + rest && ([true] + rest)[1..] == rest;
    } else if Tells(g, acts[0], s, SFailed) {
      assert Reports(g, acts, s) == [false] + rest && ([false] + rest)[1..] == rest;
    } else {
      assert Reports(g, acts, s) == [] + rest == rest;
    }
  }

  lemma {:induction false} RunBooks(g: Gateway, acts: seq<Action>, s: Source)
    requires Inv(g) && Legal(g, acts)
    ensures Booked(g.ledgers.At(s), ExecAll(g, acts).ledgers.At(s), acts, Reports(g, acts, s), s)
    decreases |acts|
  {
    if acts != [] {
      if acts[0].CaseStep? { assert P.Unrestricted(g.cases[acts[0].id]); }
      InvStep(g, acts[0]);
      RunBooks(Exec(g, acts[0]), acts[1..], s);
      BookedBefore(g, acts, s, ExecAll(g, acts).ledgers.At(s));
    }
  }

  // -------------------------------------------------------------------------
  // Theorems
  // -------------------------------------------------------------------------

  /** In the running gateway every breaker's books say what the tasks of its source did: calls
      admitted, rows that succeeded, rows that failed, poll timeouts, and the time. */
  lemma BreakerBooks(courts: map<CaseId, bool>, acts: seq<Action>, s: Source)
    requires Legal(Started(courts), acts)
    ensures var l, told := ExecAll(Started(courts), acts).ledgers.At(s), Reports(Started(courts), acts, s);
            && l.admitted == Admissions(acts, s) && l.abandoned == Timeouts(acts, s)
            && l.successes == Count(told, true) && l.failures == Count(told, false)
            && l.now == Elapsed(acts)
  {
    StartedInv(courts);
    RunBooks(Started(courts), acts, s);
  }

  /** And the breaker is closed if and only if fewer than five rows have failed since the
      last one that succeeded. */
  lemma ClosedIff(courts: map<CaseId, bool>, acts: seq<Action>, s: Source)
    requires Legal(Started(courts), acts)
    ensures ExecAll(Started(courts), acts).ledgers.At(s).b.state.Closed? <==>
            Streak(0, Reports(Started(courts), acts, s)) < 5
  {
    var g := Started(courts);
    StartedInv(courts);
    RunBooks(g, acts, s);
    BreakerProjection(g, acts, s);
    CB.LedgerFollowsCalls(g.ledgers.At(s), BreakerRun(g, acts, s));
    CB.StateRefinesHistory(MAX_FAILURES, COOLDOWN, CB.CallsIn(g.ledgers.At(s), BreakerRun(g, acts, s)));
  }

  lemma {:induction false} SuccessCounts(bs: seq<bool>)
    requires true !in bs
    ensures Count(bs, true) == 0
  {
    if bs != [] {
      assert bs[0] in bs && true !in bs[1..];
      SuccessCounts(bs[1..]);
    }
  }

  /** An open breaker admits at most one call per thirty seconds until the row of some task
      succeeds. */
  lemma OpenBreakerBound(courts: map<CaseId, bool>, before: seq<Action>, acts: seq<Action>, s: Source)
    requires Legal(Started(courts), before) && Legal(ExecAll(Started(courts), before), acts)
    requires ExecAll(Started(courts), before).ledgers.At(s).b.state.Open?
    requires true !in Reports(ExecAll(Started(courts), before), acts, s)
    ensures var l := ExecAll(Started(courts), before).ledgers.At(s);
            Admissions(acts, s) * 30_000_000_000 <= Elapsed(acts) + Elapsed(before) - l.b.openedAt
  {
    var g := ExecAll(Started(courts), before);
    StartedInv(courts);
    InvAlways(Started(courts), before);
    SameCooldown(courts, before, s);
    BreakerBooks(courts, before, s);
    RunBooks(g, acts, s);
    SuccessCounts(Reports(g, acts, s));
    OpenBreakerFrom(g, acts, s);
  }

  /** The fifth failed row in a row opens the breaker at the moment it is reported. */
  lemma FifthFailureOpens(courts: map<CaseId, bool>, before: seq<Action>, a: Action, s: Source)
    requires Legal(Started(courts), before) && Enabled(ExecAll(Started(courts), before), a)
    requires Tells(ExecAll(Started(courts), before), a, s, SFailed)
    requires Streak(0, Reports(Started(courts), before, s)) == 4
    ensures var b := Exec(ExecAll(Started(courts), before), a).ledgers.At(s).b;
            b.state.Open? && b.openedAt == Elapsed(before)
  {
    var g := ExecAll(Started(courts), before);
    FourFailures(courts, before, s);
    FailureReported(g, a, s, Elapsed(before));
  }

  lemma FourFailures(courts: map<CaseId, bool>, acts: seq<Action>, s: Source)
    requires Legal(Started(courts), acts) && Streak(0, Reports(Started(courts), acts, s)) == 4
    ensures var l := ExecAll(Started(courts), acts).ledgers.At(s);
            l.b.state.Closed? && l.b.failures == 4 && l.b.maxFailures == 5 && l.now == Elapsed(acts)
    ensures Inv(ExecAll(Started(courts), acts))
  {
    InvOfRun(courts, acts);
    var g := Started(courts);
    StartedInv(courts);
    RunBooks(g, acts, s);
    ClosedIff(courts, acts, s);
    BreakerProjection(g, acts, s);
    CB.LedgerFollowsCalls(g.ledgers.At(s), BreakerRun(g, acts, s));
    CB.StateRefinesHistory(MAX_FAILURES, COOLDOWN, CB.CallsIn(g.ledgers.At(s), BreakerRun(g, acts, s)));
  }

  lemma InvOfRun(courts: map<CaseId, bool>, acts: seq<Action>)
    requires Legal(Started(courts), acts)
    ensures Inv(ExecAll(Started(courts), acts))
  {
    StartedInv(courts);
    InvAlways(Started(courts), acts);
  }

  lemma FailureReported(g: Gateway, a: Action, s: Source, now: nat)
    requires Inv(g) && Enabled(g, a) && Tells(g, a, s, SFailed)
    requires var l := g.ledgers.At(s);
             l.b.state.Closed? && l.b.failures == 4 && l.b.maxFailures == 5 && l.now == now
    ensures var b := Exec(g, a).ledgers.At(s).b; b.state.Open? && b.openedAt == now
  {
    var e := ReportOf(g, a, s);
    FifthFailure(g.ledgers.At(s), e);
  }

  lemma ReportOf(g: Gateway, a: Action, s: Source) returns (e: CB.Event)
    requires Inv(g) && Enabled(g, a) && Tells(g, a, s, SFailed)
    ensures e.Report? && !e.ok && Exec(g, a).ledgers.At(s) == CB.Next(g.ledgers.At(s), e)
  {
    assert P.Unrestricted(g.cases[a.id]);
    EventTells(g, a, s);
    LedgerStep(g, a, s);
    e := LedgerEvent(g, a, s).value;
  }

  lemma FifthFailure(l: CB.Ledger, e: CB.Event)
    requires e.Report? && !e.ok && l.b.state.Closed? && l.b.failures == 4 && l.b.maxFailures == 5
    ensures CB.Next(l, e).b.state.Open? && CB.Next(l, e).b.openedAt == l.now
  {}

  lemma StillOpen(g: Gateway, acts: seq<Action>, s: Source)
    requires Inv(g) && Legal(g, acts) && g.ledgers.At(s).b.state.Open?
    requires true !in Reports(g, acts, s) && Admissions(acts, s) == 0 && Health(s) !in acts
    ensures var b, b' := g.ledgers.At(s).b, ExecAll(g, acts).ledgers.At(s).b;
            b'.state.Open? && b'.openedAt == b.openedAt && b'.cooldown == b.cooldown
  {
    RunBooks(g, acts, s);
    SuccessCounts(Reports(g, acts, s));
    BreakerProjection(g, acts, s);
    NoHealthNoInspect(g, acts, s);
    CountersTellEvents(g.ledgers.At(s), BreakerRun(g, acts, s));
    CB.OpenUntilProbed(g.ledgers.At(s), BreakerRun(g, acts, s));
  }

  /** From that report on, and until some row succeeds, no task of any case is let through
      for thirty seconds; and if none has been, and nobody has asked for the state, the next
      one is as soon as they are over. */
  lemma FiveFailures(courts: map<CaseId, bool>, before: seq<Action>, a: Action, acts: seq<Action>, s: Source)
    requires Legal(Started(courts), before) && Enabled(ExecAll(Started(courts), before), a)
    requires Tells(ExecAll(Started(courts), before), a, s, SFailed)
    requires Streak(0, Reports(Started(courts), before, s)) == 4
    requires Legal(Exec(ExecAll(Started(courts), before), a), acts)
    requires true !in Reports(Exec(ExecAll(Started(courts), before), a), acts, s)
    ensures Elapsed(acts) < 30_000_000_000 ==> Admissions(acts, s) == 0
    ensures Admissions(acts, s) == 0 && Health(s) !in acts ==>
              var l := ExecAll(Exec(ExecAll(Started(courts), before), a), acts).ledgers.At(s);
              CB.Admits(l.b, l.now) <==> Elapsed(acts) >= 30_000_000_000
  {
    var g0 := Started(courts);
    var g1 := Exec(ExecAll(g0, before), a);
    FifthFailureOpens(courts, before, a, s);
    Then1(g0, before, a);
    ElapsedThen(before, a);
    OpenBreakerBound(courts, before + [a], acts, s);
    BreakerBooks(courts, before + [a], s);
    SameCooldown(courts, before + [a], s);
    StartedInv(courts);
    InvAlways(g0, before + [a]);
    RunBooks(g1, acts, s);
    if Admissions(acts, s) == 0 && Health(s) !in acts { StillOpen(g1, acts, s); }
  }

  lemma Then1(g: Gateway, acts: seq<Action>, a: Action)
    requires Legal(g, acts) && Enabled(ExecAll(g, acts), a)
    ensures Legal(g, acts + [a]) && ExecAll(g, acts + [a]) == Exec(ExecAll(g, acts), a)
  {
    var acts', g' := Then(g, acts, ExecAll(g, acts), a);
  }

  lemma {:induction false} ElapsedThen(acts: seq<Action>, a: Action)
    requires !a.Elapse?
    ensures Elapsed(acts + [a]) == Elapsed(acts)
  {
    if acts == [] {
      assert acts + [a] == [a] && [a][1..] == [];
    } else {
      assert (acts + [a])[0] == acts[0] && (acts + [a])[1..] == acts[1..] + [a];
      ElapsedThen(acts[1..], a);
    }
  }
}

/** The hypothesis of the strong guarantees is exact: the step that ends it breaks them all. */
module LookupRace {
  import opened Types
  import opened LookupCase
  import opened LookupModes
  import opened LookupProtocol
  import opened LookupGuarantees
  import opened RetriggerSteps
  import opened WorkerRuns
  import S = LookupStore
  import T = SourceTask

  // -------------------------------------------------------------------------
  // Where an overlap begins
  // -------------------------------------------------------------------------

  /** Only reading the run can make re-triggers overlap. */
  lemma ApartUnlessRead(c: CaseState, a: Action)
    requires Apart(c) && Enabled(c, a) && !a.ReadRun?
    ensures Apart(Exec(c, a))
  {
    var c' := Exec(c, a);
    assert forall t <- c'.triggers :: Retriggering(c'.triggers[t]) ==> t in c.triggers && Retriggering(c.triggers[t]);
  }

  /** A call that may still reset rows, and not only because it is slow. */
  predicate CanOvertake(pc: Trigger) {
    match pc
    case RunSeen(seen) => seen.Partial? || seen.Failed?
    case Fetching => true
    case Resetting(todo) => todo != []
    case SourcesReset => true
    case _ => false
  }

  predicate Applies(c: CaseState, s: Source) {
    s.Court? ==> c.hasCourt
  }

  /** The situation in which an overlap begins: the run has failed sources, nobody works on
      them, and one call is on its way to reset them. */
  ghost predicate OneUnderWay(c: CaseState, t: nat, s: Source) {
    && c.run.Some? && (c.run.value.status.Partial? || c.run.value.status.Failed?)
    && NobodyWorks(c) && (forall u: Source :: Charged(c, u))
    && t in c.triggers && CanOvertake(c.triggers[t])
    && !StatusOf(c, s).Settled() && Applies(c, s)
  }

  lemma NothingLeft(c: CaseState)
    requires c.run.Some? && Retryable(c.run.value.rows) == []
    ensures NoPendingRow(c) && Overall(c.run.value.rows).Complete?
  {
    RetryableRows(c.run.value.rows);
  }

  lemma SomethingUnsettled(c: CaseState, m: Mode) returns (s: Source)
    requires InMode(c, m) && c.run.Some? && (c.run.value.status.Partial? || c.run.value.status.Failed?)
    ensures !StatusOf(c, s).Settled() && Applies(c, s)
  {
    RetryableRows(c.run.value.rows);
    if Retryable(c.run.value.rows) == [] { NothingLeft(c); }
    s := Retryable(c.run.value.rows)[0];
    assert s in Retryable(c.run.value.rows);
    assert T.RowFits(c.run.value.rows.At(Court), Court, c.hasCourt);
  }

  lemma OverlapBegins(c: CaseState, m: Mode, a: Action) returns (t: nat, s: Source)
    requires InMode(c, m) && Apart(c) && Enabled(c, a) && !Apart(Exec(c, a))
    ensures a.ReadRun? && t != a.t && OneUnderWay(c, t, s)
  {
    if !a.ReadRun? { ApartUnlessRead(c, a); }
    var c' := Exec(c, a);
    t :| t in c'.triggers && t != a.t && Retriggering(c'.triggers[t]) && Retriggering(c'.triggers[a.t]);
    assert c.triggers[t] == c'.triggers[t] && !Quiet(c.triggers[t]);
    s := SomethingUnsettled(c, m);
  }

  // -------------------------------------------------------------------------
  // The two calls
  // -------------------------------------------------------------------------

  /** Nothing has been called, charged or launched; what was to be retried still is. */
  ghost predicate SameCharges(c: CaseState, c': CaseState) {
    && c.run.Some? && c'.run.Some? && c'.hasCourt == c.hasCourt
    && c'.workers == c.workers && c'.calls == c.calls
    && forall u: Source ::
         && c'.run.value.rows.At(u).attempts == c.run.value.rows.At(u).attempts
         && (!StatusOf(c, u).Settled() ==> !StatusOf(c', u).Settled())
  }

  /** From a read of the run, or from a fetch of its sources, to the list of what to retry. */
  lemma Lists(from: CaseState, acts: seq<Action>, c: CaseState, t: nat, s: Source, ts: set<nat>)
    returns (acts': seq<Action>, c': CaseState, todo: seq<Source>)
    requires Onward(from, acts, c) && c.run.Some? && !StatusOf(c, s).Settled()
    requires t in c.triggers && CanOvertake(c.triggers[t]) && (c.triggers[t].RunSeen? || c.triggers[t].Fetching?)
    requires By(acts, ts) && t in ts
    ensures Onward(from, acts', c') && c' == Goto(c, t, Resetting(todo)) && todo != [] && By(acts', ts)
  {
    RetryableRows(c.run.value.rows);
    acts', c', todo := acts, c, Retryable(c.run.value.rows);
    assert s in todo;
    if c.triggers[t].RunSeen? {
      acts', c' := Extend(from, acts', c', ReadSources(t));
    }
    acts', c' := Extend(from, acts', c', GetRetryable(t));
    assert c' == Goto(c, t, Resetting(todo));
  }

  lemma ResetsKeepCharges(c: CaseState, t: nat, pc: Trigger, todo: seq<Source>)
    requires c.run.Some?
    ensures SameCharges(c, Moved(c, t, pc, S.ResetRows(c.run.value, todo)))
  {
    forall u: Source { S.ResetRowsAt(c.run.value, todo, u); }
  }

  /** The quicker call resets what it has to reset. */
  lemma Overtakes(from: CaseState, acts: seq<Action>, c: CaseState, t: nat, s: Source, ts: set<nat>)
    returns (acts': seq<Action>, c': CaseState)
    requires Onward(from, acts, c) && c.run.Some? && !StatusOf(c, s).Settled()
    requires t in c.triggers && CanOvertake(c.triggers[t]) && By(acts, ts) && t in ts
    ensures Onward(from, acts', c') && SameCharges(c, c') && By(acts', ts)
    ensures c'.triggers == c.triggers[t := SourcesReset]
  {
    acts', c' := acts, c;
    var todo: seq<Source>;
    if c.triggers[t].SourcesReset? {
      assert c.triggers[t := SourcesReset] == c.triggers;
      return;
    }
    if c.triggers[t].Resetting? {
      todo := c.triggers[t].todo;
    } else {
      acts', c', todo := Lists(from, acts', c', t, s, ts);
    }
    var resets := ResetSteps(c', t, todo, |todo|);
    assert todo[..|todo|] == todo;
    var c2 := Moved(c', t, SourcesReset, S.ResetRows(c.run.value, todo));
    acts' := Join(from, acts', c', resets, c2);
    ResetsKeepCharges(c, t, SourcesReset, todo);
    c' := c2;
  }

  /** The quicker call `t` has launched worker `w`; the slower one, `u`, is about to reset
      the sources it has listed before. */
  ghost predicate Overtaken(c0: CaseState, c: CaseState, t: nat, w: nat, u: nat, todo: seq<Source>) {
    && c0.run.Some? && c.run.Some? && c.hasCourt == c0.hasCourt && c.calls == c0.calls
    && w !in c0.workers && c.workers == c0.workers[w := Worker(false, Loading)]
    && At(c, u, Resetting(todo)) && todo != []
    && forall v: Source ::
         && c.run.value.rows.At(v).attempts == c0.run.value.rows.At(v).attempts
         && (!StatusOf(c0, v).Settled() ==> !StatusOf(c, v).Settled())
  }

  lemma Overtaking(c: CaseState, t: nat, u: nat, s: Source)
    returns (acts: seq<Action>, c': CaseState, w: nat, todo: seq<Source>)
    requires OneUnderWay(c, t, s) && At(c, u, Arrived) && t != u
    ensures Onward(Exec(c, ReadRun(u)), acts, c') && Overtaken(c, c', t, w, u, todo) && By(acts, {t, u})
  {
    var c0 := Exec(c, ReadRun(u));
    Stay(c0);
    var c1, c2;
    acts, c1, todo := Lists(c0, [], c0, u, s, {t, u});
    acts, c2 := Overtakes(c0, acts, c1, t, s, {t, u});
    w := Unused(c2.workers.Keys);
    var launch := RelaunchSteps(c2, t, w);
    c' := Relaunched(c2, t, w, c2.run.value);
    acts := Join(c0, acts, c2, launch, c');
  }

  // -------------------------------------------------------------------------
  // What the slower call then does
  // -------------------------------------------------------------------------

  /** The stored status says complete, the rows do not. */
  predicate Misreported(c: CaseState) {
    c.run.Some? && c.run.value.status.Complete? && !Overall(c.run.value.rows).Complete?
  }

  /** Nobody works on the case, and an attempts column has lost calls. */
  ghost predicate Undercharged(c: CaseState) {
    && c.run.Some? && NobodyWorks(c)
    && exists s: Source :: c.run.value.rows.At(s).attempts < c.calls.At(s)
  }

  /** One more step changes a row that is settled. */
  ghost predicate AboutToReopen(c: CaseState, a: Action) {
    && c.run.Some? && Enabled(c, a) && !a.ReadRun? && Exec(c, a).run.Some?
    && exists s: Source :: StatusOf(c, s).Settled() && Exec(c, a).run.value.rows.At(s) != c.run.value.rows.At(s)
  }

  /** The run is complete and so are its rows, until this step resets one of them. */
  ghost predicate ReopensComplete(c: CaseState, a: Action) {
    && AboutToReopen(c, a) && a.ResetSource?
    && c.run.value.status.Complete? && Overall(c.run.value.rows).Complete? && Misreported(Exec(c, a))
  }

  lemma OneUnsettled(rows: Rows, s: Source)
    requires !rows.At(s).status.Settled()
    ensures !Overall(rows).Complete?
  {
    RetryableRows(rows);
    assert s in Retryable(rows);
  }

  lemma AllSettledIsComplete(rows: Rows)
    requires AllSettled(rows)
    ensures Overall(rows).Complete?
  {}

  /** It resets a row of a run that the other call's worker has completed. */
  lemma LateReset(c0: CaseState, c: CaseState, t: nat, w: nat, u: nat, todo: seq<Source>)
    returns (acts: seq<Action>, c': CaseState)
    requires Overtaken(c0, c, t, w, u, todo)
    ensures Onward(c, acts, c') && ReopensComplete(c', ResetSource(u))
  {
    Stay(c);
    var c1;
    acts, c1 := Extend(c, [], c, Load(w));
    LoadedIsReady(c, w);
    var work;
    work, c' := Completes(c1, w);
    acts := Join(c, acts, c1, work, c');
    var s := todo[0];
    OneUnsettled(Exec(c', ResetSource(u)).run.value.rows, s);
    assert StatusOf(c', s).Settled();
    AllSettledIsComplete(c'.run.value.rows);
  }

  /** Two workers have been launched for the same sources. */
  ghost predicate Doubled(c0: CaseState, c: CaseState, w: nat, x: nat, s: Source) {
    && c0.run.Some? && c.run.Some? && c.hasCourt == c0.hasCourt && c.calls == c0.calls
    && w !in c0.workers && x !in c0.workers && w != x
    && c.workers == c0.workers[w := Worker(false, Loading)][x := Worker(false, Loading)]
    && c.run.value.rows.At(s).attempts == c0.run.value.rows.At(s).attempts && !StatusOf(c, s).Settled()
  }

  lemma LateLaunch(c0: CaseState, c: CaseState, t: nat, w: nat, u: nat, todo: seq<Source>, s: Source)
    returns (acts: seq<Action>, c': CaseState, x: nat)
    requires Overtaken(c0, c, t, w, u, todo) && !StatusOf(c0, s).Settled()
    ensures Onward(c, acts, c') && Doubled(c0, c', w, x, s)
  {
    x := Unused(c.workers.Keys);
    acts := RetrySteps(c, u, x, todo);
    c' := Relaunched(c, u, x, S.ResetRows(c.run.value, todo));
    S.ResetRowsAt(c.run.value, todo, s);
  }

  /** Both have loaded their sources, and each is going to charge `s` on top of what the row
      held before either began. */
  ghost predicate BothLoaded(c0: CaseState, c: CaseState, w: nat, x: nat, s: Source) {
    && c0.run.Some? && c.calls == c0.calls
    && w != x && Works(c, w) && Works(c, x) && Ready(c, w) && Ready(c, x)
    && (forall v <- c.workers :: v != w && v != x ==> v in c0.workers && c.workers[v] == c0.workers[v])
    && TaskAt(c, w, s).Some? && TaskAt(c, x, s).Some?
    && TaskAt(c, w, s) == TaskAt(c, x, s)
    && TaskAt(c, w, s).value == T.Task(s, c.hasCourt, c0.run.value.rows.At(s).attempts, 0, T.Begin)
    && c.hasCourt == c0.hasCourt
  }

  lemma BothLoad(c0: CaseState, c: CaseState, w: nat, x: nat, s: Source)
    returns (acts: seq<Action>, c': CaseState)
    requires Doubled(c0, c, w, x, s)
    ensures Onward(c, acts, c') && BothLoaded(c0, c', w, x, s)
  {
    Stay(c);
    var c1;
    acts, c1 := Extend(c, [], c, Load(w));
    LoadedIsReady(c, w);
    acts, c' := Extend(c, acts, c1, Load(x));
    LoadedIsReady(c1, x);
    forall v: Source
      ensures ReadyFor(c', w, v)
    {
      assert ReadyFor(c1, w, v);
    }
  }

  /** The first worker to finish leaves the other one ready. */
  lemma OtherStaysReady(c: CaseState, c': CaseState, w: nat, x: nat)
    requires Works(c, w) && Works(c, x) && w != x && Ready(c, x) && CompletedBy(c, c', w)
    ensures Works(c', x) && Ready(c', x) && c'.workers[x] == c.workers[x]
  {
    assert c'.workers[x] == c.workers[x];
    forall v: Source
      ensures ReadyFor(c', x, v)
    {
      assert ReadyFor(c, x, v);
    }
  }

  /** Both finish; the row keeps only the calls of the one that wrote last. */
  lemma BothFinish(c0: CaseState, c: CaseState, w: nat, x: nat, s: Source)
    returns (acts: seq<Action>, c': CaseState)
    requires BothLoaded(c0, c, w, x, s) && NobodyWorks(c0) && Charged(c0, s) && Applies(c0, s)
    ensures Onward(c, acts, c') && Undercharged(c')
  {
    var c1, more;
    acts, c1 := Completes(c, w);
    assert WorkerRuns.Answered(c, c1, w, s);
    OtherStaysReady(c, c1, w, x);
    more, c' := Completes(c1, x);
    assert WorkerRuns.Answered(c1, c', x, s);
    acts := Join(c, acts, c1, more, c');
    forall v <- c'.workers
      ensures !Live(c'.workers[v])
    {
      assert v in c.workers;
      if v != w && v != x { assert c'.workers[v] == c0.workers[v]; }
    }
  }

  /** More than one goroutine is going to complete the pending run. */
  ghost predicate Shared(c: CaseState) {
    c.run.Some? && c.run.value.status.Pending? && |Owners(c)| >= 2
  }

  lemma TwoOwners(c: CaseState, a: Owner, b: Owner)
    requires a in Owners(c) && b in Owners(c) && a != b
    ensures |Owners(c)| >= 2
  {
    assert Owners(c) == {a, b} + (Owners(c) - {a, b});
    assert |{a, b}| == 2;
  }

  /** It resets the run for a second worker while the first one is on it. */
  lemma SecondOwner(c0: CaseState, c: CaseState, t: nat, w: nat, u: nat, todo: seq<Source>)
    returns (acts: seq<Action>, c': CaseState)
    requires Overtaken(c0, c, t, w, u, todo)
    ensures Onward(c, acts, c') && Shared(c') && By(acts, {u})
  {
    acts := ResetSteps(c, u, todo, |todo|);
    c' := Moved(c, u, SourcesReset, S.ResetRows(c.run.value, todo[..|todo|]));
    acts, c' := Extend(c, acts, c', ResetRun(u));
    assert AboutToLaunch(c'.triggers[u]) && Live(c'.workers[w]);
    TwoOwners(c', ByTrigger(u), ByWorker(w));
  }

  /** A call that read a partial or failed run stands in front of an empty list. */
  ghost predicate FoundNothing(c: CaseState) {
    exists t :: At(c, t, NothingToRetry)
  }

  /** It has only read the run when the other call's worker settles the last row. */
  lemma ComesTooLate(c: CaseState, t: nat, u: nat, s: Source) returns (acts: seq<Action>, c': CaseState)
    requires OneUnderWay(c, t, s) && At(c, u, Arrived) && t != u
    ensures Onward(Exec(c, ReadRun(u)), acts, c') && FoundNothing(c')
  {
    var c0 := Exec(c, ReadRun(u));
    Stay(c0);
    var c1;
    acts, c1 := Overtakes(c0, [], c0, t, s, {t});
    var w := Unused(c1.workers.Keys);
    var more := RelaunchSteps(c1, t, w);
    var c2 := Relaunched(c1, t, w, c1.run.value);
    acts := Join(c0, acts, c1, more, c2);
    acts, c1 := Extend(c0, acts, c2, Load(w));
    LoadedIsReady(c2, w);
    more, c2 := Completes(c1, w);
    acts := Join(c0, acts, c1, more, c2);
    assert At(c2, u, c0.triggers[u]);
    acts, c' := Extend(c0, acts, c2, ReadSources(u));
    AllSettledIsComplete(c'.run.value.rows);
    RetryableRows(c'.run.value.rows);
    acts, c' := Extend(c0, acts, c', GetRetryable(u));
    assert At(c', u, NothingToRetry);
  }

  // -------------------------------------------------------------------------
  // The exact condition
  // -------------------------------------------------------------------------

  /** Without any further call reading the run, the status can come to misreport the rows. */
  ghost predicate CanMisreport(c: CaseState) {
    exists acts, c' :: Onward(c, acts, c') && Misreported(c')
  }

  /** Nor is a settled row final. */
  ghost predicate CanReopen(c: CaseState) {
    exists acts, c', a :: Onward(c, acts, c') && AboutToReopen(c', a)
  }

  ghost predicate CanUndercharge(c: CaseState) {
    exists acts, c' :: Onward(c, acts, c') && Undercharged(c')
  }

  ghost predicate CanShare(c: CaseState) {
    exists acts, c' :: Onward(c, acts, c') && Shared(c')
  }

  ghost predicate CanFindNothing(c: CaseState) {
    exists acts, c' :: Onward(c, acts, c') && FoundNothing(c')
  }

  lemma OverlapReopens(c: CaseState, m: Mode, a: Action) returns (acts: seq<Action>, done: CaseState, late: Action)
    requires InMode(c, m) && Apart(c) && Enabled(c, a) && !Apart(Exec(c, a))
    ensures Onward(Exec(c, a), acts, done) && ReopensComplete(done, late)
  {
    var t, s := OverlapBegins(c, m, a);
    var c1, w, todo;
    acts, c1, w, todo := Overtaking(c, t, a.t, s);
    var more;
    more, done := LateReset(c, c1, t, w, a.t, todo);
    acts := Join(Exec(c, a), acts, c1, more, done);
    late := ResetSource(a.t);
  }

  lemma OverlapUndercharges(c: CaseState, m: Mode, a: Action) returns (acts: seq<Action>, lost: CaseState)
    requires InMode(c, m) && Apart(c) && Enabled(c, a) && !Apart(Exec(c, a))
    ensures Onward(Exec(c, a), acts, lost) && Undercharged(lost)
  {
    var t, s := OverlapBegins(c, m, a);
    var c0 := Exec(c, a);
    var c1, w, todo;
    acts, c1, w, todo := Overtaking(c, t, a.t, s);
    var more, c2, x := LateLaunch(c, c1, t, w, a.t, todo, s);
    acts := Join(c0, acts, c1, more, c2);
    var c3;
    more, c3 := BothLoad(c, c2, w, x, s);
    acts := Join(c0, acts, c2, more, c3);
    more, lost := BothFinish(c, c3, w, x, s);
    acts := Join(c0, acts, c3, more, lost);
  }

  /** Steps of the two calls are enough. */
  lemma OverlapShares(c: CaseState, m: Mode, a: Action) returns (acts: seq<Action>, both: CaseState, ts: set<nat>)
    requires InMode(c, m) && Apart(c) && Enabled(c, a) && !Apart(Exec(c, a))
    ensures Onward(Exec(c, a), acts, both) && Shared(both) && By(acts, ts)
  {
    var t, s := OverlapBegins(c, m, a);
    var c1, w, todo;
    acts, c1, w, todo := Overtaking(c, t, a.t, s);
    var more;
    more, both := SecondOwner(c, c1, t, w, a.t, todo);
    acts := Join(Exec(c, a), acts, c1, more, both);
    ts := {t, a.t};
  }

  lemma OverlapFindsNothing(c: CaseState, m: Mode, a: Action) returns (acts: seq<Action>, idle: CaseState)
    requires InMode(c, m) && Apart(c) && Enabled(c, a) && !Apart(Exec(c, a))
    ensures Onward(Exec(c, a), acts, idle) && FoundNothing(idle)
  {
    var t, s := OverlapBegins(c, m, a);
    acts, idle := ComesTooLate(c, t, a.t, s);
  }

  /** Whatever the state of the case, and wherever the other call stands. */
  lemma EveryOverlapBreaks(c: CaseState, m: Mode, a: Action)
    requires InMode(c, m) && Apart(c) && Enabled(c, a) && !Apart(Exec(c, a))
    ensures CanMisreport(Exec(c, a)) && CanReopen(Exec(c, a)) && CanUndercharge(Exec(c, a))
    ensures CanShare(Exec(c, a)) && CanFindNothing(Exec(c, a))
  {
    var acts, done, late := OverlapReopens(c, m, a);
    var breaking, bad := Extend(Exec(c, a), acts, done, late);
    var losing, lost := OverlapUndercharges(c, m, a);
    var sharing, both, ts := OverlapShares(c, m, a);
    var finding, idle := OverlapFindsNothing(c, m, a);
  }

  lemma {:induction false} OnwardStaysApart(c: CaseState, acts: seq<Action>)
    requires Apart(c) && Legal(c, acts) && forall a <- acts :: !a.ReadRun?
    ensures LegalApart(c, acts) && Apart(ExecAll(c, acts))
    decreases |acts|
  {
    if acts != [] {
      assert acts[0] in acts && forall a <- acts[1..] :: a in acts;
      ApartUnlessRead(c, acts[0]);
      OnwardStaysApart(Exec(c, acts[0]), acts[1..]);
    }
  }

  lemma ModeIsSound(c: CaseState, m: Mode)
    requires InMode(c, m)
    ensures !Misreported(c) && !Undercharged(c) && !Shared(c) && !FoundNothing(c)
  {
    OwnersByMode(c, m);
    assert forall t <- c.triggers :: Quiet(c.triggers[t]) || !c.triggers[t].NothingToRetry?;
    if c.run.Some? && NobodyWorks(c) {
      assert !m.Busy?;
      forall s: Source
        ensures c.run.value.rows.At(s).attempts == c.calls.At(s)
      {
        assert Charged(c, s);
      }
    }
  }

  lemma ApartIsSafe(c: CaseState, m: Mode)
    requires InMode(c, m) && Apart(c)
    ensures !CanMisreport(c) && !CanReopen(c) && !CanUndercharge(c) && !CanShare(c) && !CanFindNothing(c)
  {
    forall acts, c' | Onward(c, acts, c')
      ensures !Misreported(c') && !Undercharged(c') && !Shared(c') && !FoundNothing(c')
      ensures forall a :: !AboutToReopen(c', a)
    {
      OnwardStaysApart(c, acts);
      var m' := ModeAlways(c, m, acts);
      ModeIsSound(c', m');
      forall a
        ensures !AboutToReopen(c', a)
      {
        if AboutToReopen(c', a) { NothingReopened(c', m', a); }
      }
    }
  }

  lemma NothingReopened(c: CaseState, m: Mode, a: Action)
    requires InMode(c, m) && c.run.Some? && Enabled(c, a)
    ensures !AboutToReopen(c, a)
  {
    forall s: Source | StatusOf(c, s).Settled()
      ensures Exec(c, a).run.Some? && Exec(c, a).run.value.rows.At(s) == c.run.value.rows.At(s)
    {
      SettledStep(c, m, a, s);
    }
  }

  lemma {:induction false} LegalApartEndsApart(c: CaseState, acts: seq<Action>)
    requires Apart(c) && LegalApart(c, acts) && Legal(c, acts)
    ensures Apart(ExecAll(c, acts))
    decreases |acts|
  {
    if acts != [] { LegalApartEndsApart(Exec(c, acts[0]), acts[1..]); }
  }

  lemma ReachedIsApart(c: CaseState)
    requires Reached(c)
    ensures Apart(c)
  {
    var acts :| ReachedBy(c, acts);
    LegalApartEndsApart(Untouched(c.hasCourt), acts);
  }

  /** The hypothesis is exact. At any point of a run without overlapping re-triggers, the next
      step keeps them apart if and only if, without any further call reading the run, the
      status cannot come to misreport the rows; if and only if no settled row can come to
      be changed; if and only if no attempts column can come to lose calls; if and only if
      the pending run cannot come to have two owners; and if and only if no call can come
      to find a partial or failed run without anything to retry. */
  lemma OverlapIsTheBreakingStep(c: CaseState, a: Action)
    requires Reached(c) && Enabled(c, a)
    ensures Apart(Exec(c, a)) <==> !CanMisreport(Exec(c, a))
    ensures Apart(Exec(c, a)) <==> !CanReopen(Exec(c, a))
    ensures Apart(Exec(c, a)) <==> !CanUndercharge(Exec(c, a))
    ensures Apart(Exec(c, a)) <==> !CanShare(Exec(c, a))
    ensures Apart(Exec(c, a)) <==> !CanFindNothing(Exec(c, a))
  {
    var m := ReachedMode(c);
    ReachedIsApart(c);
    if Apart(Exec(c, a)) {
      ModeStep(c, m, a);
      ApartIsSafe(Exec(c, a), NextMode(c, m, a));
    } else {
      EveryOverlapBreaks(c, m, a);
    }
  }
}

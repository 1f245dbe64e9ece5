/** The promises of the lookup protocol: what holds of every run, and what holds of every
    run in which re-triggers of the case do not overlap. */
module LookupGuarantees {
  import opened Types
  import opened LookupCase
  import opened LookupModes
  import opened LookupProtocol

  /** Any number of concurrent triggers of an untouched case, in any order and with any
      overlap: once the run exists, exactly one creating call has launched its worker or is
      about to, every 202 answer stands for one launched worker, a pending run always has
      somebody to complete it, no row is charged for calls that were not made, and columns
      agree with statuses. */
  lemma AnyNumberOfTriggers(hasCourt: bool, acts: seq<Action>)
    requires Legal(Untouched(hasCourt), acts)
    ensures var c := ExecAll(Untouched(hasCourt), acts);
            && Commits(Untouched(hasCourt), acts) == (if c.run.Some? then 1 else 0)
            && |Standing(c.triggers, Launching(true))| + |Creators(c.workers)| == (if c.run.Some? then 1 else 0)
            && |Standing(c.triggers, Answered(202))| == |c.workers|
            && (c.run.Some? && c.run.value.status.Pending? ==> Owners(c) != {})
            && (c.run.Some? ==> RowsFit(c.run.value.rows, hasCourt))
            && (c.run.Some? ==> (c.run.value.completed <==> !c.run.value.status.Pending?))
            && (c.run.Some? ==> forall s: Source :: c.run.value.rows.At(s).attempts <= c.calls.At(s))
  {
    var c0 := Untouched(hasCourt);
    UntouchedUnrestricted(hasCourt);
    UnrestrictedAlways(c0, acts);
    ExactlyOneCommit(c0, acts);
    var c := ExecAll(c0, acts);
    SameCourt(c0, acts);
    if c.run.Some? && c.run.value.status.Pending? {
      if t :| t in c.triggers && AboutToLaunch(c.triggers[t]) {
        assert ByTrigger(t) in Owners(c);
      } else {
        var w :| w in c.workers && Live(c.workers[w]);
        assert ByWorker(w) in Owners(c);
      }
    }
  }

  lemma {:induction false} SameCourt(c: CaseState, acts: seq<Action>)
    requires Legal(c, acts)
    ensures ExecAll(c, acts).hasCourt == c.hasCourt
    decreases |acts|
  {
    if acts != [] { SameCourt(Exec(c, acts[0]), acts[1..]); }
  }

  lemma {:induction false} ModeAlways(c: CaseState, m: Mode, acts: seq<Action>) returns (m': Mode)
    requires InMode(c, m) && LegalApart(c, acts)
    ensures Legal(c, acts) && InMode(ExecAll(c, acts), m')
    decreases |acts|
  {
    m' := m;
    if acts != [] {
      ModeStep(c, m, acts[0]);
      m' := ModeAlways(Exec(c, acts[0]), NextMode(c, m, acts[0]), acts[1..]);
    }
  }

  /** The states reached from an untouched case without overlapping re-triggers. */
  ghost predicate Reached(c: CaseState) {
    exists acts :: ReachedBy(c, acts)
  }

  ghost predicate ReachedBy(c: CaseState, acts: seq<Action>) {
    LegalApart(Untouched(c.hasCourt), acts) && Legal(Untouched(c.hasCourt), acts)
    && ExecAll(Untouched(c.hasCourt), acts) == c
  }

  lemma ReachedMode(c: CaseState) returns (m: Mode)
    requires Reached(c)
    ensures InMode(c, m)
  {
    var acts :| ReachedBy(c, acts);
    m := ModeAlways(Untouched(c.hasCourt), NoRun, acts);
  }

  lemma OwnersByMode(c: CaseState, m: Mode)
    requires InMode(c, m)
    ensures Owners(c) == match m
                         case LaunchDue(t) => {ByTrigger(t)}
                         case Busy(w) => {ByWorker(w)}
                         case _ => {}
  {
    match m
    case LaunchDue(t) => assert Owners(c) == {ByTrigger(t)};
    case Busy(w) =>
      assert Live(c.workers[w]);
      assert Owners(c) == {ByWorker(w)};
    case _ => assert Owners(c) == {};
  }

  /** A pending run has exactly one owner and any other run has none; and unless a reset is
      under way, the stored status summarises the rows as they are now. */
  lemma OneOwner(c: CaseState)
    requires Reached(c)
    ensures c.run.None? ==> Owners(c) == {}
    ensures c.run.Some? && c.run.value.status.Pending? ==> |Owners(c)| == 1
    ensures c.run.Some? && !c.run.value.status.Pending? ==>
              && Owners(c) == {}
              && (NoPendingRow(c) ==> c.run.value.status == Overall(c.run.value.rows))
    ensures c.run.Some? && !c.run.value.status.Pending? && !NoPendingRow(c) ==>
              exists t :: t in c.triggers && (c.triggers[t].Resetting? || c.triggers[t].SourcesReset?)
  {
    var m := ReachedMode(c);
    OwnersByMode(c, m);
  }

  /** And what it then says: complete if no source has failed, failed if one has and none has
      succeeded, partial if some have and some have not. */
  lemma StatusTells(c: CaseState)
    requires Reached(c) && c.run.Some? && !c.run.value.status.Pending? && NoPendingRow(c)
    ensures c.run.value.status.Complete? <==> forall s: Source :: !StatusOf(c, s).SFailed?
    ensures c.run.value.status.Failed? <==>
            (exists s: Source :: StatusOf(c, s).SFailed?) && forall s: Source :: !StatusOf(c, s).SSuccess?
    ensures c.run.value.status.Partial? <==>
            (exists s: Source :: StatusOf(c, s).SFailed?) && exists s: Source :: StatusOf(c, s).SSuccess?
  {
    OneOwner(c);
    OverallTells(c.run.value.rows);
    assert forall s: Source :: StatusOf(c, s) == c.run.value.rows.At(s).status && StatusOf(c, s).Terminal();
  }

  /** Whenever nobody works on the case, each row's attempts column is the number of client
      calls ever made for that source, over all rounds. */
  lemma AttemptsConserved(c: CaseState, s: Source)
    requires Reached(c) && c.run.Some? && NobodyWorks(c)
    ensures c.run.value.rows.At(s).attempts == c.calls.At(s)
  {
    var m := ReachedMode(c);
    assert Charged(c, s);
  }

  /** No reachable call ever finds a partial or failed run without anything to retry. */
  lemma NothingToRetryUnreachable(c: CaseState, t: nat)
    requires Reached(c) && t in c.triggers
    ensures !c.triggers[t].NothingToRetry?
  {
    var m := ReachedMode(c);
    assert Quiet(c.triggers[t]) || !Quiet(c.triggers[t]);
  }

  /** However triggers overlap: a resolved court row is skipped exactly when the case has no
      court number, and the other sources are never skipped. */
  lemma CourtSkippedIffNoNumber(hasCourt: bool, acts: seq<Action>)
    requires Legal(Untouched(hasCourt), acts) && ExecAll(Untouched(hasCourt), acts).run.Some?
    ensures var c := ExecAll(Untouched(hasCourt), acts);
            && (StatusOf(c, Court).Terminal() ==> (StatusOf(c, Court).SNotApplicable? <==> !hasCourt))
            && !StatusOf(c, Property).SNotApplicable? && !StatusOf(c, Scra).SNotApplicable?
  {
    AnyNumberOfTriggers(hasCourt, acts);
    var rows := ExecAll(Untouched(hasCourt), acts).run.value.rows;
    assert forall s: Source :: LookupProtocol.T.RowFits(rows.At(s), s, hasCourt);
  }

  lemma SettledStep(c: CaseState, m: Mode, a: Action, s: Source)
    requires InMode(c, m) && Enabled(c, a) && c.run.Some? && StatusOf(c, s).Settled()
    ensures Exec(c, a).run.Some? && Exec(c, a).run.value.rows.At(s) == c.run.value.rows.At(s)
  {
    match a
    case ResetSource(t) =>
      assert m == HalfReset(t);
      assert c.triggers[t].todo[0] in c.triggers[t].todo;
    case TaskStep(w, u, ta) =>
      assert Live(c.workers[w]);
      assert m == Busy(w);
      assert SourceBusy(c, c.workers[w].phase.tasks.At(u), u);
      TaskStepEffect(c, w, u, ta);
    case _ =>
  }

  lemma {:induction false} SettledFrom(c: CaseState, m: Mode, acts: seq<Action>, s: Source)
    requires InMode(c, m) && LegalApart(c, acts) && Legal(c, acts) && c.run.Some?
    ensures var c' := ExecAll(c, acts);
            && c'.run.Some?
            && (StatusOf(c, s).Settled() ==> c'.run.value.rows.At(s) == c.run.value.rows.At(s))
            && (s in Retryable(c'.run.value.rows) ==> s in Retryable(c.run.value.rows))
    decreases |acts|
  {
    RetryableRows(c.run.value.rows);
    if acts != [] {
      var c1 := Exec(c, acts[0]);
      if StatusOf(c, s).Settled() { SettledStep(c, m, acts[0], s); }
      RunIdStep(c, acts[0]);
      ModeStep(c, m, acts[0]);
      SettledFrom(c1, NextMode(c, m, acts[0]), acts[1..], s);
      RetryableRows(c1.run.value.rows);
    }
  }

  /** Results are final: no later step, of any round, touches a row that succeeded or was
      skipped. In particular the set of sources to retry never grows. */
  lemma SettledRowsAreFinal(c: CaseState, acts: seq<Action>, s: Source)
    requires Reached(c) && c.run.Some? && LegalApart(c, acts) && Legal(c, acts)
    ensures var c' := ExecAll(c, acts);
            && c'.run.Some?
            && (StatusOf(c, s).Settled() ==> c'.run.value.rows.At(s) == c.run.value.rows.At(s))
            && (s in Retryable(c'.run.value.rows) ==> s in Retryable(c.run.value.rows))
  {
    var m := ReachedMode(c);
    SettledFrom(c, m, acts, s);
  }

  lemma {:induction false} CompleteFrom(c: CaseState, acts: seq<Action>)
    requires InMode(c, Idle) && c.run.value.status.Complete? && LegalApart(c, acts) && Legal(c, acts)
    ensures var c' := ExecAll(c, acts);
            && c'.run == c.run && c'.workers == c.workers && c'.calls == c.calls
            && InMode(c', Idle)
    decreases |acts|
  {
    if acts != [] {
      assert acts[0].TaskStep? ==> !Live(c.workers[acts[0].w]);
      ModeStep(c, Idle, acts[0]);
      CompleteFrom(Exec(c, acts[0]), acts[1..]);
    }
  }

  /** Where a call can stand on a complete run: nowhere near a reset or a launch. */
  predicate NoWork(pc: Trigger) {
    pc.Arrived? || pc.NoRunSeen? || pc == RunSeen(Complete) || pc == RunSeen(Pending) || pc.Answered?
  }

  /** A complete run is complete for good: later triggers change neither it nor the call
      counts, launch nobody, and never get as far as a reset. */
  lemma CompleteIsFinal(c: CaseState, acts: seq<Action>)
    requires Reached(c) && c.run.Some? && c.run.value.status.Complete?
    requires LegalApart(c, acts) && Legal(c, acts)
    ensures var c' := ExecAll(c, acts);
            && c'.run == c.run && c'.workers == c.workers && c'.calls == c.calls
            && forall t <- c'.triggers :: NoWork(c'.triggers[t])
  {
    var m := ReachedMode(c);
    CompleteFrom(c, acts);
  }
}

/** What every interleaving of triggers and workers of one case keeps under the hypothesis
    that re-triggers do not overlap. */
module LookupModes {
  import opened Types
  import opened LookupCase
  import opened LookupProtocol
  import T = SourceTask

  /** Which of five situations the case is in, and who is responsible. */
  datatype Mode =
    | NoRun
    | Idle
    | HalfReset(t: nat)
    | LaunchDue(t: nat)
    | Busy(w: nat)

  predicate Quiet(pc: Trigger) {
    !Retriggering(pc) && !AboutToLaunch(pc)
  }

  ghost predicate OthersQuiet(c: CaseState, t: nat) {
    forall u <- c.triggers :: u != t ==> Quiet(c.triggers[u])
  }

  ghost predicate AllQuiet(c: CaseState) {
    forall u <- c.triggers :: Quiet(c.triggers[u])
  }

  ghost predicate NobodyWorks(c: CaseState) {
    forall w <- c.workers :: !Live(c.workers[w])
  }

  /** Every call made for a source is in its row. */
  predicate Charged(c: CaseState, s: Source)
    requires c.run.Some?
  {
    c.calls.At(s) == c.run.value.rows.At(s).attempts
  }

  function StatusOf(c: CaseState, s: Source): SourceStatus
    requires c.run.Some?
  {
    c.run.value.rows.At(s).status
  }

  ghost predicate AwaitingRetry(c: CaseState, pc: Trigger)
    requires c.run.Some?
  {
    var status := c.run.value.status;
    (status.Partial? || status.Failed?) && (pc == RunSeen(status) || pc.Fetching?)
  }

  ghost predicate NoPendingRow(c: CaseState)
    requires c.run.Some?
  {
    forall s: Source :: StatusOf(c, s).Terminal()
  }

  ghost predicate HalfResetRows(c: CaseState, todo: seq<Source>)
    requires c.run.Some?
  {
    && (forall i, j :: 0 <= i < j < |todo| ==> todo[i] != todo[j])
    && forall s: Source ::
         && Charged(c, s)
         && if s in todo then StatusOf(c, s).SFailed? else StatusOf(c, s).Settled() || StatusOf(c, s).SPending?
  }

  /** A row and the task working on it. */
  ghost predicate SourceBusy(c: CaseState, t: Option<T.Task>, s: Source)
    requires c.run.Some?
  {
    match t
    case None => StatusOf(c, s).Settled() && Charged(c, s)
    case Some(task) =>
      if task.pc.Finished? then StatusOf(c, s).Terminal() && Charged(c, s)
      else
        && StatusOf(c, s).SPending?
        && c.run.value.rows.At(s).attempts == task.base
        && c.calls.At(s) == task.base + task.made
  }

  ghost predicate PhaseAgrees(c: CaseState, p: Phase)
    requires c.run.Some?
  {
    match p
    case Loading => HalfResetRows(c, [])
    case Working(tasks) => forall s: Source :: SourceBusy(c, tasks.At(s), s)
    case Summing(overall) =>
      && (forall s: Source :: Charged(c, s) && StatusOf(c, s).Terminal())
      && overall == Overall(c.run.value.rows)
    case Exited => false
  }

  ghost predicate InMode(c: CaseState, m: Mode) {
    && Shape(c)
    && (c.run.None? <==> m.NoRun?)
    && match m
       case NoRun => AllQuiet(c)
       case Idle =>
         && !c.run.value.status.Pending?
         && c.run.value.status == Overall(c.run.value.rows)
         && NobodyWorks(c)
         && (forall s: Source :: Charged(c, s) && StatusOf(c, s).Terminal())
         && (forall t <- c.triggers :: Quiet(c.triggers[t]) || AwaitingRetry(c, c.triggers[t]))
       case HalfReset(t) =>
         && (c.run.value.status.Partial? || c.run.value.status.Failed?)
         && NobodyWorks(c) && t in c.triggers && OthersQuiet(c, t)
         && (c.triggers[t].Resetting? || c.triggers[t].SourcesReset?)
         && (!c.hasCourt ==> StatusOf(c, Court).SNotApplicable?)
         && HalfResetRows(c, if c.triggers[t].Resetting? then c.triggers[t].todo else [])
         && (NoPendingRow(c) ==> c.run.value.status == Overall(c.run.value.rows))
       case LaunchDue(t) =>
         && c.run.value.status.Pending?
         && NobodyWorks(c) && t in c.triggers && OthersQuiet(c, t)
         && AboutToLaunch(c.triggers[t])
         && HalfResetRows(c, [])
       case Busy(w) =>
         && c.run.value.status.Pending?
         && AllQuiet(c)
         && w in c.workers && (forall v <- c.workers :: v != w ==> !Live(c.workers[v]))
         && PhaseAgrees(c, c.workers[w].phase)
  }

  /** How responsibility moves. */
  function NextMode(c: CaseState, m: Mode, a: Action): Mode {
    match a
    case Create(t, _) => if c.run.None? then LaunchDue(t) else m
    case GetRetryable(t) => HalfReset(t)
    case ResetRun(t) => LaunchDue(t)
    case Spawn(_, w) => Busy(w)
    case Finish(_) => Idle
    case _ => m
  }

  /** What each overall status says of the rows. */
  lemma OverallTells(rows: Rows)
    ensures Overall(rows).Complete? <==>
            forall s: Source :: rows.At(s).status.SSuccess? || rows.At(s).status.SNotApplicable?
    ensures Overall(rows).Failed? <==>
            && (exists s: Source :: rows.At(s).status.SFailed?)
            && forall s: Source :: rows.At(s).status.SFailed? || rows.At(s).status.SNotApplicable?
    ensures Overall(rows).Partial? <==>
            && (exists s: Source :: rows.At(s).status.SFailed? || rows.At(s).status.SPending?)
            && exists s: Source :: rows.At(s).status.SSuccess? || rows.At(s).status.SPending?
  {
    var ss := [rows.court.status, rows.property.status, rows.scra.status];
    assert ss[0] == rows.At(Court).status && ss[1] == rows.At(Property).status && ss[2] == rows.At(Scra).status;
    assert forall s: Source :: rows.At(s).status in ss;
    forall x <- ss
      ensures exists s: Source :: rows.At(s).status == x
    {
      assert x == rows.At(Court).status || x == rows.At(Property).status || x == rows.At(Scra).status;
    }
  }

  /** How a worker ends, in whatever state it finds the case: it takes the summary of the rows
      as they are, and later stores that summary as the run's status. */
  lemma WorkerSummarises(c: CaseState, w: nat)
    requires Enabled(c, Collect(w)) || Enabled(c, Finish(w))
    ensures Enabled(c, Collect(w)) ==>
              var c' := Exec(c, Collect(w));
              && c'.run == c.run && c'.workers[w].phase.Summing?
              && var overall := c'.workers[w].phase.overall;
                 && !overall.Pending?
                 && (overall.Complete? <==> forall s: Source :: StatusOf(c, s).Settled())
                 && (overall.Failed? <==>
                       && (exists s: Source :: StatusOf(c, s).SFailed?)
                       && forall s: Source :: StatusOf(c, s).SFailed? || StatusOf(c, s).SNotApplicable?)
    ensures Enabled(c, Finish(w)) ==>
              var c' := Exec(c, Finish(w));
              && !Live(c'.workers[w]) && c'.run.Some? && c'.run.value.rows == c.run.value.rows
              && c'.run.value.status == c.workers[w].phase.overall
              && c'.run.value.completed == !c.workers[w].phase.overall.Pending?
  {
    OverallTells(c.run.value.rows);
    assert forall s: Source :: StatusOf(c, s) == c.run.value.rows.At(s).status;
  }

  /** The order of the names of the sources: court_records, property_records, scra. */
  predicate Before(a: Source, b: Source) {
    (a.Court? && !b.Court?) || (a.Property? && b.Scra?)
  }

  lemma RetryableRows(rows: Rows)
    ensures Retryable(rows) == [] <==> Overall(rows).Complete?
    ensures forall s: Source :: s in Retryable(rows) <==> !rows.At(s).status.Settled()
    ensures forall i, j :: 0 <= i < j < |Retryable(rows)| ==> Retryable(rows)[i] != Retryable(rows)[j]
    ensures forall i, j :: 0 <= i < j < |Retryable(rows)| ==> Before(Retryable(rows)[i], Retryable(rows)[j])
  {
    var ss := [rows.court.status, rows.property.status, rows.scra.status];
    assert ss[0] == rows.court.status && ss[1] == rows.property.status && ss[2] == rows.scra.status;
    if forall s <- ss :: s.Settled() {
      assert ss[0] in ss && ss[1] in ss && ss[2] in ss;
    }
  }

  predicate ActsOnResets(a: Action) {
    a.GetRetryable? || a.ResetSource? || a.ResetRun?
  }

  predicate LaunchStep(c: CaseState, a: Action) {
    a.Reload? || a.Spawn? || (a.Create? && c.run.None?)
  }

  /** A trigger moves, and nothing else does. */
  lemma ModeGoto(c: CaseState, m: Mode, t: nat, pc: Trigger)
    requires InMode(c, m) && Shape(Goto(c, t, pc))
    requires t in c.triggers ==> Quiet(c.triggers[t]) || m.Idle?
    requires Quiet(pc) || (m.Idle? && AwaitingRetry(c, pc))
    ensures InMode(Goto(c, t, pc), m)
  {
    var c' := Goto(c, t, pc);
    if c.run.Some? { SameRun(c, c'); }
    match m
    case HalfReset(u) => assert t != u;
    case LaunchDue(u) => assert t != u;
    case _ =>
  }

  /** Steps of triggers that only look, or arrive too late. */
  lemma ModeBystanderStep(c: CaseState, m: Mode, a: Action)
    requires InMode(c, m) && Enabled(c, a) && Apart(Exec(c, a)) && TriggerIn(a).Some?
    requires !ActsOnResets(a) && !LaunchStep(c, a)
    ensures InMode(Exec(c, a), m)
  {
    var t := TriggerIn(a).value;
    var pc := Exec(c, a).triggers[t];
    ShapeStep(c, a);
    assert !a.CompleteAnyway?;
    assert Exec(c, a) == Goto(c, t, pc);
    if m.HalfReset? {
      assert m.t in Exec(c, a).triggers && Retriggering(c.triggers[m.t]);
    }
    ModeGoto(c, m, t, pc);
  }

  lemma SameRun(c: CaseState, c': CaseState)
    requires c.run.Some? && c'.run == c.run && c'.calls == c.calls && c'.workers == c.workers
    ensures forall s: Source :: Charged(c', s) == Charged(c, s) && StatusOf(c', s) == StatusOf(c, s)
    ensures forall todo :: HalfResetRows(c, todo) ==> HalfResetRows(c', todo)
    ensures forall p :: PhaseAgrees(c, p) ==> PhaseAgrees(c', p)
    ensures NoPendingRow(c') ==> NoPendingRow(c)
  {
    assert forall s: Source :: Charged(c', s) == Charged(c, s) && StatusOf(c', s) == StatusOf(c, s);
    assert forall todo :: HalfResetRows(c, todo) ==> HalfResetRows(c', todo);
    forall p | PhaseAgrees(c, p)
      ensures PhaseAgrees(c', p)
    {
      if p.Working? {
        forall s: Source
          ensures SourceBusy(c', p.tasks.At(s), s)
        {
          assert SourceBusy(c, p.tasks.At(s), s);
        }
      }
    }
  }

  lemma ModeGetRetryable(c: CaseState, m: Mode, t: nat)
    requires InMode(c, m) && Enabled(c, GetRetryable(t)) && Apart(Exec(c, GetRetryable(t)))
    ensures InMode(Exec(c, GetRetryable(t)), HalfReset(t))
  {
    var c' := Exec(c, GetRetryable(t));
    ShapeStep(c, GetRetryable(t));
    RetryableRows(c.run.value.rows);
    assert m.Idle?;
    SameRun(c, c');
    forall u | u in c'.triggers && u != t
      ensures Quiet(c'.triggers[u])
    {
      assert Retriggering(c'.triggers[t]);
      assert Quiet(c.triggers[u]) || AwaitingRetry(c, c.triggers[u]);
    }
    forall s: Source
      ensures Charged(c', s) && (s in Retryable(c.run.value.rows) ==> StatusOf(c', s).SFailed?)
    {
      assert Charged(c, s) && StatusOf(c, s).Terminal();
    }
  }

  /** Resetting the first of the listed rows. */
  lemma HalfResetStep(c: CaseState, t: nat, rest: seq<Source>)
    requires Enabled(c, ResetSource(t)) && HalfResetRows(c, c.triggers[t].todo)
    requires rest == c.triggers[t].todo[1..]
    ensures var c' := Exec(c, ResetSource(t));
            && HalfResetRows(c', rest) && StatusOf(c', c.triggers[t].todo[0]).SPending?
            && (StatusOf(c, Court).SNotApplicable? ==> StatusOf(c', Court).SNotApplicable?)
  {
    var c' := Exec(c, ResetSource(t));
    var todo := c.triggers[t].todo;
    assert todo == [todo[0]] + rest;
    forall s: Source
      ensures Charged(c', s)
      ensures s in rest ==> StatusOf(c', s).SFailed?
      ensures s !in rest ==> StatusOf(c', s).Settled() || StatusOf(c', s).SPending?
    {
      assert Charged(c, s);
      assert s in todo <==> s == todo[0] || s in rest;
    }
    assert todo[0] in todo;
  }

  lemma ModeResetSource(c: CaseState, m: Mode, t: nat)
    requires InMode(c, m) && Enabled(c, ResetSource(t))
    ensures InMode(Exec(c, ResetSource(t)), m)
  {
    ShapeStep(c, ResetSource(t));
    assert m == HalfReset(t);
    HalfResetStep(c, t, c.triggers[t].todo[1..]);
  }

  lemma ModeResetRun(c: CaseState, m: Mode, t: nat)
    requires InMode(c, m) && Enabled(c, ResetRun(t))
    ensures InMode(Exec(c, ResetRun(t)), LaunchDue(t))
  {
    var c' := Exec(c, ResetRun(t));
    ShapeStep(c, ResetRun(t));
    assert m == HalfReset(t);
    assert forall s: Source :: Charged(c', s) == Charged(c, s) && StatusOf(c', s) == StatusOf(c, s);
  }

  lemma ModeLaunchStep(c: CaseState, m: Mode, a: Action)
    requires InMode(c, m) && Enabled(c, a) && LaunchStep(c, a)
    ensures InMode(Exec(c, a), NextMode(c, m, a))
  {
    var c' := Exec(c, a);
    ShapeStep(c, a);
    if a.Create? {
      assert forall s: Source :: Charged(c', s) && StatusOf(c', s).SPending?;
    } else {
      assert m == LaunchDue(a.t);
      assert forall s: Source :: Charged(c', s) == Charged(c, s) && StatusOf(c', s) == StatusOf(c, s);
    }
  }

  lemma ModeTaskStep(c: CaseState, m: Mode, w: nat, s: Source, ta: T.Action)
    requires InMode(c, m) && Enabled(c, TaskStep(w, s, ta))
    ensures InMode(Exec(c, TaskStep(w, s, ta)), m)
  {
    var a := TaskStep(w, s, ta);
    var c' := Exec(c, a);
    var task := TaskOf(c, w, s);
    ShapeStep(c, a);
    assert Live(c.workers[w]);
    assert m == Busy(w);
    TaskStepEffect(c, w, s, ta);
    forall u: Source
      ensures SourceBusy(c', c'.workers[w].phase.tasks.At(u), u)
    {
      assert SourceBusy(c, c.workers[w].phase.tasks.At(u), u);
      if u == s { BusyTaskStep(c, w, s, ta); }
    }
  }

  lemma BusyTaskStep(c: CaseState, w: nat, s: Source, ta: T.Action)
    requires Shape(c) && Enabled(c, TaskStep(w, s, ta))
    requires SourceBusy(c, Some(TaskOf(c, w, s)), s)
    ensures var c' := Exec(c, TaskStep(w, s, ta)); SourceBusy(c', Some(TaskOf(c', w, s)), s)
  {
    var task := TaskOf(c, w, s);
    TaskStepEffect(c, w, s, ta);
    TaskStepKeepsWorkers(c, w, s, ta);
    T.TaskInvStep(task, ta);
    T.StepBooks(task, ta);
  }

  lemma ModeWorkerStep(c: CaseState, m: Mode, a: Action)
    requires InMode(c, m) && Enabled(c, a) && (a.Load? || a.Collect? || a.Finish?)
    ensures InMode(Exec(c, a), NextMode(c, m, a))
  {
    var c' := Exec(c, a);
    ShapeStep(c, a);
    assert Live(c.workers[a.w]);
    assert m == Busy(a.w);
    match a
    case Load(w) =>
      forall s: Source
        ensures SourceBusy(c', c'.workers[w].phase.tasks.At(s), s)
      {
        assert Charged(c, s);
      }
    case Collect(w) =>
      forall s: Source
        ensures Charged(c', s) && StatusOf(c', s).Terminal()
      {
        assert SourceBusy(c, c.workers[w].phase.tasks.At(s), s);
      }
    case Finish(w) =>
      forall s: Source
        ensures Charged(c', s) && StatusOf(c', s).Terminal()
      {
        assert Charged(c, s) && StatusOf(c, s).Terminal();
      }
      assert WorkerFits(c, c.workers[w]);
  }

  lemma ModeStep(c: CaseState, m: Mode, a: Action)
    requires InMode(c, m) && Enabled(c, a) && Apart(Exec(c, a))
    ensures InMode(Exec(c, a), NextMode(c, m, a))
  {
    if LaunchStep(c, a) {
      ModeLaunchStep(c, m, a);
    } else if a.GetRetryable? {
      ModeGetRetryable(c, m, a.t);
    } else if a.ResetSource? {
      ModeResetSource(c, m, a.t);
    } else if a.ResetRun? {
      ModeResetRun(c, m, a.t);
    } else if TriggerIn(a).Some? {
      ModeBystanderStep(c, m, a);
    } else if a.TaskStep? {
      ModeTaskStep(c, m, a.w, a.source, a.a);
    } else {
      ModeWorkerStep(c, m, a);
    }
  }
}

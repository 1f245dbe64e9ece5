/** What every interleaving of triggers and workers of one case keeps, with no restriction
    on how they overlap. */
module LookupProtocol {
  import opened Types
  import opened LookupCase
  import T = SourceTask

  ghost predicate RowsFit(rows: Rows, hasCourt: bool) {
    forall s: Source :: T.RowFits(rows.At(s), s, hasCourt)
  }

  ghost predicate TaskFits(c: CaseState, t: Option<T.Task>, s: Source) {
    t.Some? ==> T.TaskInv(t.value) && t.value.source == s && t.value.applicable == c.hasCourt
  }

  ghost predicate WorkerFits(c: CaseState, w: Worker) {
    match w.phase
    case Working(tasks) => forall s: Source :: TaskFits(c, tasks.At(s), s)
    case Summing(overall) => !overall.Pending?
    case _ => true
  }

  /** Nothing but `ReadRun` and `Create` can happen before the run exists. */
  predicate BeforeRun(pc: Trigger) {
    pc.Arrived? || pc.NoRunSeen? || pc.Answered?
  }

  /** Domains: columns agree with statuses, tasks are well-formed, `completed_at` is set
      exactly on runs that are not pending. */
  ghost predicate Shape(c: CaseState) {
    && (c.run.None? ==>
          && c.workers == map[] && c.calls == PerSource(0, 0, 0)
          && forall t <- c.triggers :: BeforeRun(c.triggers[t]))
    && (c.run.Some? ==>
          && RowsFit(c.run.value.rows, c.hasCourt)
          && (c.run.value.completed <==> !c.run.value.status.Pending?))
    && (forall w <- c.workers :: WorkerFits(c, c.workers[w]))
    && (forall t <- c.triggers :: c.triggers[t].Resetting? ==> c.triggers[t].todo != [])
  }

  /** What a task step touches: its own task, and at most its own row and counter. */
  lemma TaskStepEffect(c: CaseState, w: nat, s: Source, ta: T.Action)
    requires Enabled(c, TaskStep(w, s, ta))
    ensures var c' := Exec(c, TaskStep(w, s, ta));
            && c'.run.Some? && c'.triggers == c.triggers && c'.hasCourt == c.hasCourt
            && c'.run.value.status == c.run.value.status && c'.run.value.completed == c.run.value.completed
            && c'.workers.Keys == c.workers.Keys
            && (forall v <- c.workers :: v != w ==> c'.workers[v] == c.workers[v])
            && HasTask(c', w, s) && TaskOf(c', w, s) == T.Exec(TaskOf(c, w, s), ta)
            && c'.calls.At(s) == c.calls.At(s) + T.Indicator(T.IsCall(ta))
            && c'.run.value.rows.At(s) == (if ta.Write? then TaskOf(c, w, s).pc.row else c.run.value.rows.At(s))
            && forall u: Source :: u != s ==>
                 && c'.workers[w].phase.tasks.At(u) == c.workers[w].phase.tasks.At(u)
                 && c'.calls.At(u) == c.calls.At(u)
                 && c'.run.value.rows.At(u) == c.run.value.rows.At(u)
  {}

  lemma TaskStepKeepsWorkers(c: CaseState, w: nat, s: Source, ta: T.Action)
    requires Shape(c) && Enabled(c, TaskStep(w, s, ta))
    ensures T.TaskInv(TaskOf(c, w, s)) && TaskOf(c, w, s).source == s && TaskOf(c, w, s).applicable == c.hasCourt
    ensures var c' := Exec(c, TaskStep(w, s, ta));
            forall v <- c'.workers :: WorkerFits(c', c'.workers[v])
  {
    var c' := Exec(c, TaskStep(w, s, ta));
    TaskStepEffect(c, w, s, ta);
    assert WorkerFits(c, c.workers[w]);
    assert TaskFits(c, c.workers[w].phase.tasks.At(s), s);
    T.TaskInvStep(TaskOf(c, w, s), ta);
    forall v | v in c'.workers
      ensures WorkerFits(c', c'.workers[v])
    {
      assert WorkerFits(c, c.workers[v]);
      if v == w {
        forall u: Source
          ensures TaskFits(c', c'.workers[w].phase.tasks.At(u), u)
        {
          assert TaskFits(c, c.workers[w].phase.tasks.At(u), u);
        }
      }
    }
  }

  lemma ShapeTaskStep(c: CaseState, w: nat, s: Source, ta: T.Action)
    requires Shape(c) && Enabled(c, TaskStep(w, s, ta))
    ensures Shape(Exec(c, TaskStep(w, s, ta)))
  {
    var c' := Exec(c, TaskStep(w, s, ta));
    TaskStepEffect(c, w, s, ta);
    TaskStepKeepsWorkers(c, w, s, ta);
    forall u: Source
      ensures T.RowFits(c'.run.value.rows.At(u), u, c.hasCourt)
    {
      assert T.RowFits(c.run.value.rows.At(u), u, c.hasCourt);
    }
  }

  lemma ShapeStep(c: CaseState, a: Action)
    requires Shape(c) && Enabled(c, a)
    ensures Shape(Exec(c, a))
    ensures Exec(c, a).hasCourt == c.hasCourt
  {
    var c' := Exec(c, a);
    match a
    case TaskStep(w, s, ta) => ShapeTaskStep(c, w, s, ta);
    case ResetSource(t) =>
      forall u: Source
        ensures T.RowFits(c'.run.value.rows.At(u), u, c.hasCourt)
      {
        assert T.RowFits(c.run.value.rows.At(u), u, c.hasCourt);
      }
    case Load(w) =>
      forall s: Source
        ensures TaskFits(c', c'.workers[w].phase.tasks.At(s), s)
      {}
    case _ =>
  }

  /** A worker that has read its sources starts one task for each that is pending or failed,
      with the attempts made so far, and none for the others. */
  lemma LoadStarts(c: CaseState, w: nat, s: Source)
    requires Enabled(c, Load(w))
    ensures Exec(c, Load(w)).run == c.run && Exec(c, Load(w)).calls == c.calls
    ensures var row := c.run.value.rows.At(s);
            && (HasTask(Exec(c, Load(w)), w, s) <==> row.status.SPending? || row.status.SFailed?)
            && (HasTask(Exec(c, Load(w)), w, s) ==>
                  TaskOf(Exec(c, Load(w)), w, s) == T.Task(s, c.hasCourt, row.attempts, 0, T.Begin))
  {}

  /** The run row, once committed, keeps its identity. */
  lemma RunIdStep(c: CaseState, a: Action)
    requires Enabled(c, a) && c.run.Some?
    ensures Exec(c, a).run.Some? && Exec(c, a).run.value.id == c.run.value.id
  {}

  // Counting the calls that create and the workers they launch.

  ghost function Standing(triggers: map<nat, Trigger>, pc: Trigger): set<nat> {
    set t | t in triggers && triggers[t] == pc
  }

  ghost function Creators(workers: map<nat, Worker>): set<nat> {
    set w | w in workers && workers[w].first
  }

  /** One run means one creation: either its trigger is about to launch, or its one worker
      has been launched. And each 202 answer stands for exactly one worker. */
  ghost predicate Launches(c: CaseState) {
    && |Standing(c.triggers, Launching(true))| + |Creators(c.workers)| == (if c.run.Some? then 1 else 0)
    && |Standing(c.triggers, Answered(202))| == |c.workers|
  }

  lemma TriggerMoves(before: map<nat, Trigger>, t: nat, pc: Trigger, counted: Trigger)
    ensures |Standing(before[t := pc], counted)| + T.Indicator(t in before && before[t] == counted)
            == |Standing(before, counted)| + T.Indicator(pc == counted)
  {
    OthersStand(before, t, pc, counted);
    Removed(Standing(before, counted), t);
    Removed(Standing(before[t := pc], counted), t);
  }

  lemma OthersStand(before: map<nat, Trigger>, t: nat, pc: Trigger, counted: Trigger)
    ensures Standing(before[t := pc], counted) - {t} == Standing(before, counted) - {t}
  {}

  lemma Removed(s: set<nat>, t: nat)
    ensures |s - {t}| + T.Indicator(t in s) == |s|
  {
    if t !in s { assert s - {t} == s; }
  }

  function TriggerIn(a: Action): Option<nat> {
    match a
    case Arrive(t) => Some(t)
    case ReadRun(t) => Some(t)
    case Create(t, _) => Some(t)
    case ReadSources(t) => Some(t)
    case GetRetryable(t) => Some(t)
    case CompleteAnyway(t) => Some(t)
    case ResetSource(t) => Some(t)
    case ResetRun(t) => Some(t)
    case Reload(t) => Some(t)
    case Spawn(t, _) => Some(t)
    case _ => None
  }

  lemma LaunchesStep(c: CaseState, a: Action)
    requires Shape(c) && Launches(c) && Enabled(c, a)
    ensures Launches(Exec(c, a))
  {
    var c' := Exec(c, a);
    WorkersAfter(c, a);
    assert |c'.workers| == |c'.workers.Keys| && |c.workers| == |c.workers.Keys|;
    if TriggerIn(a).Some? {
      var t := TriggerIn(a).value;
      TriggerMoves(c.triggers, t, c'.triggers[t], Launching(true));
      TriggerMoves(c.triggers, t, c'.triggers[t], Answered(202));
      if a.Spawn? {
        assert |Creators(c'.workers)| == |Creators(c.workers)| + T.Indicator(c.triggers[t].first);
      }
    } else {
      assert Standing(c'.triggers, Launching(true)) == Standing(c.triggers, Launching(true));
      assert Standing(c'.triggers, Answered(202)) == Standing(c.triggers, Answered(202));
    }
  }

  /** Only `Spawn` adds a worker, and no step changes who launched one. */
  lemma WorkersAfter(c: CaseState, a: Action)
    requires Enabled(c, a)
    ensures var c' := Exec(c, a);
            && c'.workers.Keys == c.workers.Keys + (if a.Spawn? then {a.w} else {})
            && Creators(c'.workers) == Creators(c.workers) + (if a.Spawn? && c.triggers[a.t].first then {a.w} else {})
            && (a.Spawn? ==> a.w !in c.workers && a.w !in Creators(c.workers))
            && (TriggerIn(a).None? ==> c'.triggers == c.triggers)
            && (TriggerIn(a).Some? ==> c'.triggers == c.triggers[TriggerIn(a).value := c'.triggers[TriggerIn(a).value]])
  {
    var c' := Exec(c, a);
    if a.Spawn? {
      CreatorsAfter(c.workers, a.w, c'.workers[a.w]);
    } else if a.Load? || a.TaskStep? || a.Collect? || a.Finish? {
      CreatorsAfter(c.workers, a.w, c'.workers[a.w]);
    }
  }

  lemma CreatorsAfter(workers: map<nat, Worker>, w: nat, x: Worker)
    ensures w !in workers ==> Creators(workers[w := x]) == Creators(workers) + (if x.first then {w} else {})
    ensures w in workers && workers[w].first == x.first ==>
              Creators(workers[w := x]) == Creators(workers) && workers[w := x].Keys == workers.Keys
  {}

  /** Nobody forgets a pending run: some trigger is about to launch a worker for it, or
      some worker is still going to complete it. */
  ghost predicate PendingOwned(c: CaseState) {
    c.run.Some? && c.run.value.status.Pending? ==>
      || (exists t :: t in c.triggers && AboutToLaunch(c.triggers[t]))
      || (exists w :: w in c.workers && Live(c.workers[w]))
  }

  lemma PendingOwnedStep(c: CaseState, a: Action)
    requires Shape(c) && PendingOwned(c) && Enabled(c, a)
    ensures PendingOwned(Exec(c, a))
  {
    var c' := Exec(c, a);
    if c'.run.Some? && c'.run.value.status.Pending? {
      match a
      case Create(t, _) =>
        if c.run.None? { assert AboutToLaunch(c'.triggers[t]); } else { KeepOwner(c, a); }
      case ResetRun(t) => assert AboutToLaunch(c'.triggers[t]);
      case Reload(t) => assert AboutToLaunch(c'.triggers[t]);
      case Spawn(_, w) => assert Live(c'.workers[w]);
      case Load(w) => assert Live(c'.workers[w]);
      case TaskStep(w, _, _) => assert Live(c'.workers[w]);
      case Collect(w) => assert Live(c'.workers[w]);
      case Finish(_) =>
      case _ => KeepOwner(c, a);
    }
  }

  /** A step of some other trigger leaves every owner in place. */
  lemma KeepOwner(c: CaseState, a: Action)
    requires Shape(c) && PendingOwned(c) && Enabled(c, a)
    requires c.run.Some? && c.run.value.status.Pending?
    requires TriggerIn(a).Some? && !AboutToLaunch(Exec(c, a).triggers[TriggerIn(a).value])
    requires !a.Spawn?
    ensures PendingOwned(Exec(c, a))
  {
    var c' := Exec(c, a);
    var t := TriggerIn(a).value;
    if u :| u in c.triggers && AboutToLaunch(c.triggers[u]) {
      assert u != t;
      assert AboutToLaunch(c'.triggers[u]);
    } else {
      var w :| w in c.workers && Live(c.workers[w]);
      assert Live(c'.workers[w]);
    }
  }

  /** Rows are never charged for calls that were not made. */
  ghost predicate NeverOvercharged(c: CaseState) {
    && (c.run.Some? ==> forall s: Source :: c.run.value.rows.At(s).attempts <= c.calls.At(s))
    && forall w, s: Source | HasTask(c, w, s) :: TaskOf(c, w, s).base + TaskOf(c, w, s).made <= c.calls.At(s)
  }

  lemma RowsNeverOvercharged(c: CaseState, w: nat, s: Source, ta: T.Action)
    requires Shape(c) && NeverOvercharged(c) && Enabled(c, TaskStep(w, s, ta))
    ensures var c' := Exec(c, TaskStep(w, s, ta));
            c'.run.Some? && forall u: Source :: c'.run.value.rows.At(u).attempts <= c'.calls.At(u)
  {
    var task := TaskOf(c, w, s);
    TaskStepKeepsWorkers(c, w, s, ta);
    TaskStepEffect(c, w, s, ta);
    assert task.base + task.made <= c.calls.At(s);
    assert ta.Write? ==> task.pc.row.attempts == task.base + task.made;
  }

  lemma NeverOverchargedStep(c: CaseState, a: Action)
    requires Shape(c) && NeverOvercharged(c) && Enabled(c, a)
    ensures NeverOvercharged(Exec(c, a))
  {
    var c' := Exec(c, a);
    if a.TaskStep? { RowsNeverOvercharged(c, a.w, a.source, a.a); }
    forall w, s: Source | HasTask(c', w, s)
      ensures TaskOf(c', w, s).base + TaskOf(c', w, s).made <= c'.calls.At(s)
    {
      NeverOverchargedTask(c, a, w, s);
    }
  }

  lemma NeverOverchargedTask(c: CaseState, a: Action, w: nat, s: Source)
    requires Shape(c) && NeverOvercharged(c) && Enabled(c, a) && HasTask(Exec(c, a), w, s)
    ensures TaskOf(Exec(c, a), w, s).base + TaskOf(Exec(c, a), w, s).made <= Exec(c, a).calls.At(s)
  {
    if a.TaskStep? {
      NeverOverchargedTaskStep(c, a.w, a.source, a.a, w, s);
    } else if HasTask(c, w, s) {
      assert TaskOf(c, w, s).base + TaskOf(c, w, s).made <= c.calls.At(s);
    }
  }

  lemma NeverOverchargedTaskStep(c: CaseState, v: nat, u: Source, ta: T.Action, w: nat, s: Source)
    requires Shape(c) && NeverOvercharged(c) && Enabled(c, TaskStep(v, u, ta))
    requires HasTask(Exec(c, TaskStep(v, u, ta)), w, s)
    ensures var c' := Exec(c, TaskStep(v, u, ta));
            TaskOf(c', w, s).base + TaskOf(c', w, s).made <= c'.calls.At(s)
  {
    TaskStepEffect(c, v, u, ta);
    TaskStepKeepsWorkers(c, v, u, ta);
    assert HasTask(c, w, s);
    assert TaskOf(c, w, s).base + TaskOf(c, w, s).made <= c.calls.At(s);
    if w == v && s == u {
      T.StepBooks(TaskOf(c, v, u), ta);
      T.TaskInvStep(TaskOf(c, v, u), ta);
    }
  }

  ghost predicate Unrestricted(c: CaseState) {
    Shape(c) && Launches(c) && PendingOwned(c) && NeverOvercharged(c)
  }

  lemma UnrestrictedStep(c: CaseState, a: Action)
    requires Unrestricted(c) && Enabled(c, a)
    ensures Unrestricted(Exec(c, a))
  {
    ShapeStep(c, a);
    LaunchesStep(c, a);
    PendingOwnedStep(c, a);
    NeverOverchargedStep(c, a);
  }

  lemma UntouchedUnrestricted(hasCourt: bool)
    ensures Unrestricted(Untouched(hasCourt))
  {
    var c := Untouched(hasCourt);
    assert Standing(c.triggers, Launching(true)) == {} && Standing(c.triggers, Answered(202)) == {};
    assert Creators(c.workers) == {};
  }

  /** Any number of concurrent triggers, in any order: the run commits at most once and
      keeps its id, its creation launches exactly one worker, row domains are kept, and a
      pending run always has somebody to complete it. */
  lemma {:induction false} UnrestrictedAlways(c: CaseState, acts: seq<Action>)
    requires Unrestricted(c) && Legal(c, acts)
    ensures Unrestricted(ExecAll(c, acts))
    ensures c.run.Some? ==> ExecAll(c, acts).run.Some? && ExecAll(c, acts).run.value.id == c.run.value.id
    decreases |acts|
  {
    if acts != [] {
      UnrestrictedStep(c, acts[0]);
      UnrestrictedAlways(Exec(c, acts[0]), acts[1..]);
    }
  }

  /** `INSERT INTO lookup_runs` succeeds at most once, and afterwards the run exists. */
  ghost function Commits(c: CaseState, acts: seq<Action>): nat
    requires Legal(c, acts)
    decreases |acts|
  {
    if acts == [] then 0
    else (if acts[0].Create? && c.run.None? then 1 else 0) + Commits(Exec(c, acts[0]), acts[1..])
  }

  lemma {:induction false} RunStays(c: CaseState, acts: seq<Action>)
    requires c.run.Some? && Legal(c, acts)
    ensures ExecAll(c, acts).run.Some? && ExecAll(c, acts).run.value.id == c.run.value.id
    decreases |acts|
  {
    if acts != [] {
      RunIdStep(c, acts[0]);
      RunStays(Exec(c, acts[0]), acts[1..]);
    }
  }

  lemma {:induction false} ExactlyOneCommit(c: CaseState, acts: seq<Action>)
    requires Shape(c) && Legal(c, acts)
    ensures Commits(c, acts) == (if ExecAll(c, acts).run.Some? && c.run.None? then 1 else 0)
    decreases |acts|
  {
    if acts != [] {
      ShapeStep(c, acts[0]);
      ExactlyOneCommit(Exec(c, acts[0]), acts[1..]);
      if Exec(c, acts[0]).run.Some? { RunStays(Exec(c, acts[0]), acts[1..]); }
    }
  }

  /** Inserts that violate UNIQUE(case_id). */
  ghost function LostInserts(c: CaseState, acts: seq<Action>): nat
    requires Legal(c, acts)
    decreases |acts|
  {
    if acts == [] then 0
    else T.Indicator(acts[0].Create? && c.run.Some?) + LostInserts(Exec(c, acts[0]), acts[1..])
  }

  ghost predicate KnownAnswers(c: CaseState) {
    forall t <- c.triggers :: c.triggers[t].Answered? ==>
      c.triggers[t].code == 200 || c.triggers[t].code == 202 || c.triggers[t].code == 500
  }

  /** The one call that moves. */
  lemma AnswerOf(c: CaseState, a: Action, t: nat)
    requires Enabled(c, a) && TriggerIn(a) == Some(t)
    ensures t in Exec(c, a).triggers && (t in c.triggers ==> !c.triggers[t].Answered?)
    ensures var pc := Exec(c, a).triggers[t];
            && (pc == Answered(500) <==> a.Create? && c.run.Some?)
            && (pc.Answered? ==> pc.code == 200 || pc.code == 202 || pc.code == 500)
  {}

  lemma AnswersStep(c: CaseState, a: Action)
    requires KnownAnswers(c) && Enabled(c, a)
    ensures KnownAnswers(Exec(c, a))
    ensures |Standing(Exec(c, a).triggers, Answered(500))|
            == |Standing(c.triggers, Answered(500))| + T.Indicator(a.Create? && c.run.Some?)
  {
    WorkersAfter(c, a);
    if TriggerIn(a).Some? {
      var t := TriggerIn(a).value;
      AnswerOf(c, a, t);
      TriggerMoves(c.triggers, t, Exec(c, a).triggers[t], Answered(500));
    }
  }

  /** A call is answered 200, 202 or 500, and 500 exactly for every insert that came too late. */
  lemma {:induction false} Answers(c: CaseState, acts: seq<Action>)
    requires KnownAnswers(c) && Legal(c, acts)
    ensures KnownAnswers(ExecAll(c, acts))
    ensures |Standing(ExecAll(c, acts).triggers, Answered(500))|
            == |Standing(c.triggers, Answered(500))| + LostInserts(c, acts)
    decreases |acts|
  {
    if acts != [] {
      AnswersStep(c, acts[0]);
      Answers(Exec(c, acts[0]), acts[1..]);
    }
  }

  /** A call that has begun to reset or has created the run. */
  predicate Committed(pc: Trigger) {
    pc.Resetting? || pc.SourcesReset? || AboutToLaunch(pc)
  }

  /** Whatever others do to the case meanwhile, it goes on to launch its worker and to answer
      202, and has no other way out. */
  lemma {:induction false} CommittedCallsLaunch(c: CaseState, acts: seq<Action>, t: nat)
    requires Legal(c, acts) && t in c.triggers
    requires Committed(c.triggers[t]) || c.triggers[t] == Answered(202)
    ensures t in ExecAll(c, acts).triggers
    ensures Committed(ExecAll(c, acts).triggers[t]) || ExecAll(c, acts).triggers[t] == Answered(202)
    decreases |acts|
  {
    if acts != [] { CommittedCallsLaunch(Exec(c, acts[0]), acts[1..], t); }
  }
}

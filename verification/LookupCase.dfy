/** The lookup protocol of one case: in-flight `TriggerLookup` calls and live `runLookup`
    goroutines around one persisted run. Each store call is one step, so every
    interleaving of any number of triggers and workers is a sequence of actions. */
module LookupCase {
  import opened Types
  import T = SourceTask

  /** Where an in-flight `TriggerLookup` stands. `seen` is the run status it read. */
  datatype Trigger =
    | Arrived
    | NoRunSeen
    | RunSeen(seen: RunStatus)
    | Fetching
    | NothingToRetry
    | Resetting(todo: seq<Source>)
    | SourcesReset
    | RunReset
    | Launching(first: bool)
    | Answered(code: int)

  datatype Phase =
    | Loading
    | Working(tasks: PerSource<Option<T.Task>>)
    | Summing(overall: RunStatus)
    | Exited

  /** `first` marks the worker launched by the call that created the run. */
  datatype Worker = Worker(first: bool, phase: Phase)

  /** `calls` is history: client calls ever made per source. */
  datatype CaseState = CaseState(
    hasCourt: bool,
    run: Option<Run>,
    triggers: map<nat, Trigger>,
    workers: map<nat, Worker>,
    calls: PerSource<nat>)

  function Untouched(hasCourt: bool): CaseState {
    CaseState(hasCourt, None, map[], map[], PerSource(0, 0, 0))
  }

  datatype Action =
    | Arrive(t: nat)
    | ReadRun(t: nat)
    | Create(t: nat, id: nat)
    | ReadSources(t: nat)
    | GetRetryable(t: nat)
    | CompleteAnyway(t: nat)
    | ResetSource(t: nat)
    | ResetRun(t: nat)
    | Reload(t: nat)
    | Spawn(t: nat, w: nat)
    | Load(w: nat)
    | TaskStep(w: nat, source: Source, a: T.Action)
    | Collect(w: nat)
    | Finish(w: nat)

  // -------------------------------------------------------------------------
  // Row functions shared with the imperative code
  // -------------------------------------------------------------------------

  /** The overall status of a run, from its sources' statuses. */
  function OverallOf(ss: seq<SourceStatus>): RunStatus {
    if forall s <- ss :: s.Settled() then Complete
    else if forall s <- ss :: s.SFailed? || s.SNotApplicable? then Failed
    else Partial
  }

  function Overall(rows: Rows): RunStatus {
    OverallOf([rows.court.status, rows.property.status, rows.scra.status])
  }

  function Reset(r: Row): Row {
    r.(status := SPending, data := None, error := None, reason := None)
  }

  /** `status IN ('pending', 'failed') ORDER BY source`. */
  function Retryable(rows: Rows): seq<Source> {
    (if rows.court.status.Settled() then [] else [Court])
    + (if rows.property.status.Settled() then [] else [Property])
    + (if rows.scra.status.Settled() then [] else [Scra])
  }

  const FRESH_ROWS: Rows := PerSource(FRESH_ROW, FRESH_ROW, FRESH_ROW)

  function FreshRun(id: nat): Run {
    Run(id, Pending, false, FRESH_ROWS)
  }

  /** `runLookup` starts a task for every source that is not settled yet. */
  function LaunchOne(rows: Rows, hasCourt: bool, s: Source): Option<T.Task> {
    if rows.At(s).status.Settled() then None
    else Some(T.Task(s, hasCourt, rows.At(s).attempts, 0, T.Begin))
  }

  function Launch(rows: Rows, hasCourt: bool): PerSource<Option<T.Task>> {
    PerSource(LaunchOne(rows, hasCourt, Court), LaunchOne(rows, hasCourt, Property), LaunchOne(rows, hasCourt, Scra))
  }

  // -------------------------------------------------------------------------
  // Steps
  // -------------------------------------------------------------------------

  predicate At(c: CaseState, t: nat, pc: Trigger) {
    t in c.triggers && c.triggers[t] == pc
  }

  predicate Done(t: Option<T.Task>) {
    t.Some? ==> t.value.pc.Finished?
  }

  predicate AllDone(tasks: PerSource<Option<T.Task>>) {
    Done(tasks.court) && Done(tasks.property) && Done(tasks.scra)
  }

  predicate HasTask(c: CaseState, w: nat, s: Source) {
    w in c.workers && c.workers[w].phase.Working? && c.workers[w].phase.tasks.At(s).Some?
  }

  function TaskOf(c: CaseState, w: nat, s: Source): T.Task
    requires HasTask(c, w, s)
  {
    c.workers[w].phase.tasks.At(s).value
  }

  predicate Enabled(c: CaseState, a: Action) {
    match a
    case Arrive(t) => t !in c.triggers
    case ReadRun(t) => At(c, t, Arrived)
    case Create(t, _) => At(c, t, NoRunSeen)
    case ReadSources(t) => t in c.triggers && c.triggers[t].RunSeen? && c.run.Some?
    case GetRetryable(t) => At(c, t, Fetching) && c.run.Some?
    case CompleteAnyway(t) => At(c, t, NothingToRetry) && c.run.Some?
    case ResetSource(t) => t in c.triggers && c.triggers[t].Resetting? && c.triggers[t].todo != [] && c.run.Some?
    case ResetRun(t) => At(c, t, SourcesReset) && c.run.Some?
    case Reload(t) => At(c, t, RunReset) && c.run.Some?
    case Spawn(t, w) => t in c.triggers && c.triggers[t].Launching? && w !in c.workers && c.run.Some?
    case Load(w) => w in c.workers && c.workers[w].phase.Loading? && c.run.Some?
    case TaskStep(w, s, ta) =>
      HasTask(c, w, s) && T.Enabled(TaskOf(c, w, s), ta) && c.run.Some?
    case Collect(w) =>
      w in c.workers && c.workers[w].phase.Working? && AllDone(c.workers[w].phase.tasks) && c.run.Some?
    case Finish(w) => w in c.workers && c.workers[w].phase.Summing? && c.run.Some?
  }

  function Goto(c: CaseState, t: nat, pc: Trigger): CaseState {
    c.(triggers := c.triggers[t := pc])
  }

  function WithPhase(c: CaseState, w: nat, p: Phase): CaseState
    requires w in c.workers
  {
    c.(workers := c.workers[w := c.workers[w].(phase := p)])
  }

  function WithRun(c: CaseState, r: Run): CaseState {
    c.(run := Some(r))
  }

  /** `UPDATE lookup_runs SET status, completed_at`. */
  function SetStatus(r: Run, s: RunStatus): Run {
    r.(status := s, completed := s != Pending)
  }

  function SetRow(r: Run, s: Source, row: Row): Run {
    r.(rows := r.rows.With(s, row))
  }

  function Exec(c: CaseState, a: Action): CaseState
    requires Enabled(c, a)
  {
    match a
    case Arrive(t) => Goto(c, t, Arrived)
    case ReadRun(t) =>
      Goto(c, t, if c.run.None? then NoRunSeen else RunSeen(c.run.value.status))
    case Create(t, id) =>
      // UNIQUE(case_id): a second insert fails and the call returns an error
      if c.run.Some? then Goto(c, t, Answered(500))
      else WithRun(Goto(c, t, Launching(true)), FreshRun(id))
    case ReadSources(t) =>
      var seen := c.triggers[t].seen;
      Goto(c, t, if seen.Pending? || seen.Complete? then Answered(200) else Fetching)
    case GetRetryable(t) =>
      var todo := Retryable(c.run.value.rows);
      Goto(c, t, if todo == [] then NothingToRetry else Resetting(todo))
    case CompleteAnyway(t) =>
      WithRun(Goto(c, t, Answered(200)), SetStatus(c.run.value, Complete))
    case ResetSource(t) =>
      var todo := c.triggers[t].todo;
      WithRun(
        Goto(c, t, if |todo| == 1 then SourcesReset else Resetting(todo[1..])),
        SetRow(c.run.value, todo[0], Reset(c.run.value.rows.At(todo[0]))))
    case ResetRun(t) => WithRun(Goto(c, t, RunReset), SetStatus(c.run.value, Pending))
    case Reload(t) => Goto(c, t, Launching(false))
    case Spawn(t, w) =>
      var first := c.triggers[t].first;
      Goto(c, t, Answered(202)).(workers := c.workers[w := Worker(first, Loading)])
    case Load(w) => WithPhase(c, w, Working(Launch(c.run.value.rows, c.hasCourt)))
    case TaskStep(w, s, ta) =>
      var task := TaskOf(c, w, s);
      var c' := WithPhase(c, w, Working(c.workers[w].phase.tasks.With(s, Some(T.Exec(task, ta)))));
      if ta.Write? then WithRun(c', SetRow(c.run.value, s, task.pc.row))
      else if T.IsCall(ta) then c'.(calls := c.calls.With(s, c.calls.At(s) + 1))
      else c'
    case Collect(w) => WithPhase(c, w, Summing(Overall(c.run.value.rows)))
    case Finish(w) =>
      WithRun(WithPhase(c, w, Exited), SetStatus(c.run.value, c.workers[w].phase.overall))
  }

  ghost predicate Legal(c: CaseState, acts: seq<Action>)
    decreases |acts|
  {
    acts == [] || (Enabled(c, acts[0]) && Legal(Exec(c, acts[0]), acts[1..]))
  }

  ghost function ExecAll(c: CaseState, acts: seq<Action>): CaseState
    requires Legal(c, acts)
    decreases |acts|
  {
    if acts == [] then c else ExecAll(Exec(c, acts[0]), acts[1..])
  }

  lemma {:induction false} RunAppend(c: CaseState, acts: seq<Action>, more: seq<Action>)
    requires Legal(c, acts) && Legal(ExecAll(c, acts), more)
    ensures Legal(c, acts + more) && ExecAll(c, acts + more) == ExecAll(ExecAll(c, acts), more)
    decreases |acts|
  {
    if acts == [] {
      assert acts + more == more;
    } else {
      assert (acts + more)[0] == acts[0] && (acts + more)[1..] == acts[1..] + more;
      RunAppend(Exec(c, acts[0]), acts[1..], more);
    }
  }

  lemma RunOne(c: CaseState, a: Action)
    requires Enabled(c, a)
    ensures Legal(c, [a]) && ExecAll(c, [a]) == Exec(c, a)
  {
    var c' := Exec(c, a);
    assert [a][0] == a && [a][1..] == [];
    assert Legal(c', []) && ExecAll(c', []) == c';
  }

  /** `acts` leads from `from` to `to`. */
  ghost predicate Path(from: CaseState, acts: seq<Action>, to: CaseState) {
    Legal(from, acts) && ExecAll(from, acts) == to
  }

  lemma Then(from: CaseState, acts: seq<Action>, c: CaseState, a: Action) returns (acts': seq<Action>, c': CaseState)
    requires Path(from, acts, c) && Enabled(c, a)
    ensures Path(from, acts', c') && c' == Exec(c, a) && acts' == acts + [a]
  {
    acts', c' := acts + [a], Exec(c, a);
    RunOne(c, a);
    RunAppend(from, acts, [a]);
  }

  /** There is always one more name for a goroutine. */
  lemma {:induction false} Unused(s: set<nat>) returns (n: nat)
    ensures n !in s && forall k <- s :: k < n
    decreases |s|
  {
    n := 0;
    if s != {} {
      var k :| k in s;
      n := Unused(s - {k});
      if n <= k { n := k + 1; }
      assert forall j <- s :: j == k || j in s - {k};
    }
  }

  // -------------------------------------------------------------------------
  // Owners and overlap
  // -------------------------------------------------------------------------

  /** Past its commit or its reset of the run, and about to launch a worker. */
  predicate AboutToLaunch(pc: Trigger) {
    pc.RunReset? || pc.Launching?
  }

  predicate Live(w: Worker) {
    !w.phase.Exited?
  }

  datatype Owner = ByTrigger(t: nat) | ByWorker(w: nat)

  ghost function Owners(c: CaseState): set<Owner> {
    (set t | t in c.triggers && AboutToLaunch(c.triggers[t]) :: ByTrigger(t))
    + (set w | w in c.workers && Live(c.workers[w]) :: ByWorker(w))
  }

  /** A call that read a partial or failed run and has not launched its worker yet. */
  predicate Retriggering(pc: Trigger) {
    match pc
    case RunSeen(seen) => seen.Partial? || seen.Failed?
    case Fetching => true
    case NothingToRetry => true
    case Resetting(_) => true
    case SourcesReset => true
    case RunReset => true
    case Launching(first) => !first
    case _ => false
  }

  /** The hypothesis of the strong theorems: re-triggers of this case do not overlap. */
  ghost predicate Apart(c: CaseState) {
    forall t, u | t in c.triggers && u in c.triggers ::
      Retriggering(c.triggers[t]) && Retriggering(c.triggers[u]) ==> t == u
  }

  /** A legal run none of whose states has two re-triggers in progress. */
  ghost predicate LegalApart(c: CaseState, acts: seq<Action>)
    decreases |acts|
  {
    acts == []
    || (Enabled(c, acts[0]) && Apart(Exec(c, acts[0])) && LegalApart(Exec(c, acts[0]), acts[1..]))
  }

  lemma {:induction false} LegalApartIsLegal(c: CaseState, acts: seq<Action>)
    requires LegalApart(c, acts)
    ensures Legal(c, acts)
    decreases |acts|
  {
    if acts != [] { LegalApartIsLegal(Exec(c, acts[0]), acts[1..]); }
  }
}

/** Whole runs of a task: their books, their end, and what the row written tells of them. */
module TaskRuns {
  import opened Types
  import opened Retry
  import opened SourceTask

  ghost predicate Legal(t: Task, acts: seq<Action>)
    decreases |acts|
  {
    acts == [] || (Enabled(t, acts[0]) && Legal(Exec(t, acts[0]), acts[1..]))
  }

  ghost function ExecAll(t: Task, acts: seq<Action>): Task
    requires Legal(t, acts)
    decreases |acts|
  {
    if acts == [] then t else ExecAll(Exec(t, acts[0]), acts[1..])
  }

  lemma {:induction false} RunAppend(t: Task, acts: seq<Action>, more: seq<Action>)
    requires Legal(t, acts) && Legal(ExecAll(t, acts), more)
    ensures Legal(t, acts + more) && ExecAll(t, acts + more) == ExecAll(ExecAll(t, acts), more)
    decreases |acts|
  {
    if acts == [] {
      assert acts + more == more;
    } else {
      assert (acts + more)[0] == acts[0] && (acts + more)[1..] == acts[1..] + more;
      RunAppend(Exec(t, acts[0]), acts[1..], more);
    }
  }

  lemma RunOne(t: Task, a: Action)
    requires Enabled(t, a)
    ensures Legal(t, [a]) && ExecAll(t, [a]) == Exec(t, a)
  {
    var t' := Exec(t, a);
    assert [a][0] == a && [a][1..] == [];
    assert Legal(t', []) && ExecAll(t', []) == t';
  }

  /** `acts` leads from `t0` to `t`. */
  ghost predicate Path(t0: Task, acts: seq<Action>, t: Task) {
    Legal(t0, acts) && ExecAll(t0, acts) == t
  }

  lemma Then(t0: Task, acts: seq<Action>, t: Task, a: Action) returns (acts': seq<Action>, t': Task)
    requires Path(t0, acts, t) && Enabled(t, a)
    ensures acts' == acts + [a] && t' == Exec(t, a) && Path(t0, acts', t')
  {
    acts', t' := acts + [a], Exec(t, a);
    RunOne(t, a);
    RunAppend(t0, acts, [a]);
  }

  function Tally(acts: seq<Action>, p: Action -> bool): nat {
    if acts == [] then 0 else (if p(acts[0]) then 1 else 0) + Tally(acts[1..], p)
  }

  /** The books of one run, from any point of it. */
  lemma {:induction false} RunBooks(t: Task, acts: seq<Action>)
    requires TaskInv(t) && Legal(t, acts)
    ensures var r := ExecAll(t, acts);
            && TaskInv(r) && r.source == t.source && r.base == t.base && r.applicable == t.applicable
            && r.made == t.made + Tally(acts, IsCall)
            && Tally(acts, IsWrite) == Indicator(r.pc.Finished?) - Indicator(t.pc.Finished?)
            && Indicator(InFlight(t)) + Tally(acts, IsAdmission)
               == Indicator(InFlight(r)) + Tally(acts, IsRelease)
            && Measure(r) + |acts| <= Measure(t)
            && (r.pc.Finished? && !t.pc.Finished? ==> acts != [] && acts[|acts| - 1].Write?)
    decreases |acts|
  {
    if acts != [] {
      var t' := Exec(t, acts[0]);
      TaskInvStep(t, acts[0]);
      StepDecreases(t, acts[0]);
      StepBooks(t, acts[0]);
      RunBooks(t', acts[1..]);
      if acts[1..] != [] {
        assert acts[1..][|acts| - 2] == acts[|acts| - 1];
      }
    }
  }

  /** A task that runs to its end writes its row exactly once, as its last step, reports to
      the breaker exactly once per admission unless its polling timed out, and stays
      within the call limit and within 80 steps. */
  lemma FinishedTask(t: Task, acts: seq<Action>)
    requires t.pc.Begin? && t.made == 0 && Legal(t, acts) && ExecAll(t, acts).pc.Finished?
    ensures Tally(acts, IsWrite) == 1 && acts[|acts| - 1].Write?
    ensures Tally(acts, IsAdmission) == Tally(acts, IsRelease)
    ensures Tally(acts, IsCall) <= CallLimit(t.source)
    ensures |acts| <= 80
  {
    RunBooks(t, acts);
  }

  /** The row written last is the outcome: terminal, and charged with every call made. */
  lemma {:induction false} FinishedTaskRow(t: Task, acts: seq<Action>)
    requires t.pc.Begin? && t.made == 0 && Legal(t, acts) && ExecAll(t, acts).pc.Finished?
    ensures |acts| > 0 && Legal(t, acts[..|acts| - 1])
    ensures var w := ExecAll(t, acts[..|acts| - 1]);
            && w.pc.Writing?
            && w.pc.row.status.Terminal()
            && w.pc.row.attempts == t.base + Tally(acts, IsCall)
            && (w.pc.row.status.SNotApplicable? <==> Skipped(t))
            && RowFits(w.pc.row, t.source, t.applicable)
  {
    RunBooks(t, acts);
    var n := |acts| - 1;
    assert acts == acts[..n] + [acts[n]];
    RunSplit(t, acts, n);
    var w := ExecAll(t, acts[..n]);
    RunBooks(t, acts[..n]);
    RunOne(w, acts[n]);
    RunBooks(w, [acts[n]]);
    TallyAppend(acts[..n], [acts[n]], IsCall);
  }

  lemma {:induction false} RunSplit(t: Task, acts: seq<Action>, n: nat)
    requires Legal(t, acts) && n <= |acts|
    ensures Legal(t, acts[..n]) && Legal(ExecAll(t, acts[..n]), acts[n..])
    ensures ExecAll(t, acts) == ExecAll(ExecAll(t, acts[..n]), acts[n..])
    decreases n
  {
    if n > 0 {
      RunSplit(Exec(t, acts[0]), acts[1..], n - 1);
      assert acts[..n][1..] == acts[1..][..n - 1] && acts[1..][n - 1..] == acts[n..];
    } else {
      assert acts[..0] == [] && acts[0..] == acts;
    }
  }

  lemma {:induction false} TallyAppend(a: seq<Action>, b: seq<Action>, p: Action -> bool)
    ensures Tally(a + b, p) == Tally(a, p) + Tally(b, p)
  {
    if a == [] {
      assert a + b == b;
    } else {
      assert (a + b)[0] == a[0] && (a + b)[1..] == a[1..] + b;
      TallyAppend(a[1..], b, p);
    }
  }

  // -------------------------------------------------------------------------
  // What the row tells
  // -------------------------------------------------------------------------

  /** The answer that makes a task succeed, with the data it brings. */
  predicate Brings(a: Action, source: Source, data: Option<string>) {
    if source.Scra? then data.Some? && a == Poll(SearchComplete(data.value)) else a == Call(Ok(data))
  }

  predicate Succeeds(a: Action, source: Source) {
    if source.Scra? then a.Poll? && a.result.SearchComplete? else a.Call? && a.out.Ok?
  }

  ghost predicate Succeeded(acts: seq<Action>, source: Source) {
    exists a <- acts :: Succeeds(a, source)
  }

  ghost predicate Brought(acts: seq<Action>, source: Source, data: Option<string>) {
    exists a <- acts :: Brings(a, source, data)
  }

  ghost predicate Aborted(acts: seq<Action>) {
    Call(Permanent) in acts || Poll(PollPermanent) in acts
  }

  /** Status, data and error of the row name what happened, and nothing that did not. */
  ghost predicate Explained(acts: seq<Action>, source: Source, row: Row) {
    && (row.status.SSuccess? <==> Succeeded(acts, source))
    && (row.status.SSuccess? ==> Brought(acts, source, row.data))
    && (row.status.SNotApplicable? <==> Skip in acts)
    && (row.error == Some(BreakerOpen) <==> Ask(false) in acts)
    && (row.error == Some(PollTimedOut) <==> Expire in acts)
    && (row.error == Some(SearchFailed) <==> Poll(SearchError) in acts)
    && (row.error == Some(CallFailed(true)) <==> Aborted(acts))
  }

  /** Nothing decisive has happened yet. */
  ghost predicate Undecided(acts: seq<Action>, source: Source) {
    && !Succeeded(acts, source) && !Aborted(acts)
    && Skip !in acts && Ask(false) !in acts && Expire !in acts && Poll(SearchError) !in acts
  }

  ghost predicate SoFar(t: Task, acts: seq<Action>) {
    match t.pc
    case Reporting(_, row) => Explained(acts, t.source, row)
    case Writing(row) => Explained(acts, t.source, row)
    case Finished => true
    case _ => Undecided(acts, t.source)
  }

  lemma Longer(acts: seq<Action>, a: Action, source: Source, data: Option<string>)
    ensures Succeeded(acts + [a], source) <==> Succeeded(acts, source) || Succeeds(a, source)
    ensures Brought(acts + [a], source, data) <==> Brought(acts, source, data) || Brings(a, source, data)
    ensures Aborted(acts + [a]) <==> Aborted(acts) || a == Call(Permanent) || a == Poll(PollPermanent)
  {
    assert forall x :: x in acts + [a] <==> x in acts || x == a;
  }

  lemma StillUndecided(acts: seq<Action>, a: Action, source: Source)
    requires Undecided(acts, source) && !Succeeds(a, source)
    requires a != Call(Permanent) && a != Poll(PollPermanent)
    requires a != Skip && a != Ask(false) && a != Expire && a != Poll(SearchError)
    ensures Undecided(acts + [a], source)
  {
    Longer(acts, a, source, None);
  }

  lemma StillExplained(acts: seq<Action>, a: Action, source: Source, row: Row)
    requires Explained(acts, source, row) && (a.Tell? || a.Write?)
    ensures Explained(acts + [a], source, row)
  {
    Longer(acts, a, source, row.data);
  }

  lemma NowExplained(acts: seq<Action>, a: Action, source: Source, row: Row)
    requires Undecided(acts, source)
    requires row.status.SSuccess? <==> Succeeds(a, source)
    requires row.status.SSuccess? ==> Brings(a, source, row.data)
    requires row.status.SNotApplicable? <==> a == Skip
    requires row.error == Some(BreakerOpen) <==> a == Ask(false)
    requires row.error == Some(PollTimedOut) <==> a == Expire
    requires row.error == Some(SearchFailed) <==> a == Poll(SearchError)
    requires row.error == Some(CallFailed(true)) <==> a == Call(Permanent) || a == Poll(PollPermanent)
    ensures Explained(acts + [a], source, row)
  {
    Longer(acts, a, source, row.data);
  }

  lemma SoFarStep(t: Task, acts: seq<Action>, a: Action)
    requires TaskInv(t) && SoFar(t, acts) && Enabled(t, a)
    ensures SoFar(Exec(t, a), acts + [a])
  {
    var t' := Exec(t, a);
    if a.Tell? {
      StillExplained(acts, a, t.source, t.pc.row);
    } else if t'.pc.Reporting? || t'.pc.Writing? {
      NowExplained(acts, a, t.source, t'.pc.row);
    } else if !t'.pc.Finished? {
      StillUndecided(acts, a, t.source);
    }
  }

  /** The transient error is only kept when the attempts are used up. */
  predicate Exhausted(t: Task) {
    (t.pc.Reporting? || t.pc.Writing?) && t.pc.row.error == Some(CallFailed(false)) ==> t.made == MaxCalls(t.source)
  }

  lemma ExhaustedStep(t: Task, a: Action)
    requires TaskInv(t) && Exhausted(t) && Enabled(t, a)
    ensures Exhausted(Exec(t, a))
  {}

  lemma {:induction false} SoFarAlways(t: Task, before: seq<Action>, acts: seq<Action>)
    requires TaskInv(t) && Exhausted(t) && SoFar(t, before) && Legal(t, acts)
    ensures SoFar(ExecAll(t, acts), before + acts) && Exhausted(ExecAll(t, acts))
    ensures ExecAll(t, acts).source == t.source
    decreases |acts|
  {
    if acts == [] {
      assert before + acts == before;
    } else {
      TaskInvStep(t, acts[0]);
      SoFarStep(t, before, acts[0]);
      ExhaustedStep(t, acts[0]);
      SoFarAlways(Exec(t, acts[0]), before + [acts[0]], acts[1..]);
      assert before + [acts[0]] + acts[1..] == before + acts;
    }
  }

  lemma ExplainedWhenWritten(t: Task, acts: seq<Action>, w: Task)
    requires t.pc.Begin? && t.made == 0 && Legal(t, acts) && ExecAll(t, acts) == w && w.pc.Writing?
    ensures Explained(acts, t.source, w.pc.row)
    ensures w.pc.row.error == Some(CallFailed(false)) ==> w.made == MaxCalls(t.source)
  {
    SoFarAlways(t, [], acts);
    assert [] + acts == acts;
  }

  /** The row of a finished task is the truth about its run: it is a success exactly when
      an answer succeeded, and then carries that answer's data; it says skipped, breaker
      open, poll timeout, failed search or permanent error exactly when that happened; and
      it keeps a transient error only when every attempt there was has been made. */
  lemma RowTellsTheRun(t: Task, acts: seq<Action>, w: Task)
    requires t.pc.Begin? && t.made == 0 && Legal(t, acts) && ExecAll(t, acts).pc.Finished?
    requires |acts| > 0 && Legal(t, acts[..|acts| - 1]) && w == ExecAll(t, acts[..|acts| - 1])
    ensures w.pc.Writing? && Explained(acts, t.source, w.pc.row)
    ensures w.pc.row.error == Some(CallFailed(false)) ==> Tally(acts, IsCall) == if t.source.Scra? then 3 else 5
    ensures SearchTold(acts, t.source, w.pc.row)
  {
    var n := |acts| - 1;
    FinishedTaskRow(t, acts);
    FinishedTask(t, acts);
    ExplainedWhenWritten(t, acts[..n], w);
    StillExplained(acts[..n], acts[n], t.source, w.pc.row);
    assert acts == acts[..n] + [acts[n]];
    RunBooks(t, acts[..n]);
    SearchToldAlways(t, [], acts[..n]);
    assert [] + acts[..n] == acts[..n];
  }

  // -------------------------------------------------------------------------
  // The search a row remembers, and how long it was asked about
  // -------------------------------------------------------------------------

  /** The row carries the id of the search that was submitted, however it ended, and none if
      there was none. */
  ghost predicate SearchTold(acts: seq<Action>, source: Source, row: Row) {
    forall id :: row.searchId == Some(id) <==> source.Scra? && Call(Ok(Some(id))) in acts
  }

  ghost predicate SearchSoFar(t: Task, acts: seq<Action>) {
    match t.pc
    case Polling(_, _, id) => t.source.Scra? && forall x :: Call(Ok(Some(x))) in acts <==> x == id
    case Reporting(_, row) => SearchTold(acts, t.source, row)
    case Writing(row) => SearchTold(acts, t.source, row)
    case Finished => true
    case _ => t.source.Scra? ==> forall x :: Call(Ok(Some(x))) !in acts
  }

  lemma SearchToldStep(t: Task, acts: seq<Action>, a: Action)
    requires TaskInv(t) && SearchSoFar(t, acts) && Enabled(t, a)
    ensures SearchSoFar(Exec(t, a), acts + [a])
  {
    assert forall x :: Call(Ok(Some(x))) in acts + [a] <==> Call(Ok(Some(x))) in acts || a == Call(Ok(Some(x)));
  }

  lemma {:induction false} SearchToldAlways(t: Task, before: seq<Action>, acts: seq<Action>)
    requires TaskInv(t) && SearchSoFar(t, before) && Legal(t, acts)
    ensures SearchSoFar(ExecAll(t, acts), before + acts) && ExecAll(t, acts).source == t.source
    decreases |acts|
  {
    if acts == [] {
      assert before + acts == before;
    } else {
      TaskInvStep(t, acts[0]);
      SearchToldStep(t, before, acts[0]);
      SearchToldAlways(Exec(t, acts[0]), before + [acts[0]], acts[1..]);
      assert before + [acts[0]] + acts[1..] == before + acts;
    }
  }

  predicate IsTick(a: Action) {
    a.Tick?
  }

  predicate IsPoll(a: Action) {
    a.Poll?
  }

  predicate IsRetried(a: Action) {
    a.Call?
  }

  /** Seconds and calls so far, by where the task stands. */
  ghost predicate Clocked(t: Task, acts: seq<Action>) {
    var ticks, polls, calls := Tally(acts, IsTick), Tally(acts, IsPoll), Tally(acts, IsRetried);
    && calls <= (if t.source.Scra? then 3 else 5) && (Expire in acts ==> ticks == 30)
    && match t.pc
       case Polling(left, tick, _) => ticks == 30 - left && polls + Indicator(tick) <= ticks
       case Calling(k) => ticks == polls == 0 && calls == k - 1
       case Sleeping(k) => ticks == polls == 0 && calls == k
       case Reporting(_, _) => polls <= ticks <= 30
       case Writing(_) => polls <= ticks <= 30
       case Finished => polls <= ticks <= 30
       case _ => ticks == polls == calls == 0
  }

  lemma {:induction false} ClockedAlways(t: Task, before: seq<Action>, acts: seq<Action>)
    requires TaskInv(t) && Clocked(t, before) && Legal(t, acts)
    ensures Clocked(ExecAll(t, acts), before + acts)
    decreases |acts|
  {
    if acts == [] {
      assert before + acts == before;
    } else {
      TaskInvStep(t, acts[0]);
      ClockedStep(t, before, acts[0]);
      ClockedAlways(Exec(t, acts[0]), before + [acts[0]], acts[1..]);
      assert before + [acts[0]] + acts[1..] == before + acts;
    }
  }

  lemma ClockedStep(t: Task, acts: seq<Action>, a: Action)
    requires TaskInv(t) && Clocked(t, acts) && Enabled(t, a)
    ensures Clocked(Exec(t, a), acts + [a])
  {
    TallyAppend(acts, [a], IsTick);
    TallyAppend(acts, [a], IsPoll);
    TallyAppend(acts, [a], IsRetried);
    assert Expire in acts + [a] <==> Expire in acts || a == Expire;
  }

  /** The configured limits, in numbers: at most five fetches or searches, at most three
      submits, at most one poll per second, for at most thirty seconds; and a poll timeout
      comes after exactly thirty. */
  lemma ConfiguredLimits(t: Task, acts: seq<Action>)
    requires t.pc.Begin? && t.made == 0 && Legal(t, acts)
    ensures Tally(acts, IsRetried) <= if t.source.Scra? then 3 else 5
    ensures Tally(acts, IsPoll) <= Tally(acts, IsTick) <= 30
    ensures Expire in acts ==> Tally(acts, IsTick) == 30
  {
    ClockedAlways(t, [], acts);
    RunBooks(t, acts);
    assert [] + acts == acts;
  }

  // -------------------------------------------------------------------------
  // One request per admission
  // -------------------------------------------------------------------------

  /** Where the task stands tells whether an answer has been transient. */
  ghost predicate Retried(t: Task, acts: seq<Action>) {
    Call(Transient) in acts <==> t.made >= 2 || t.pc.Sleeping? || (t.pc.Calling? && t.made >= 1)
  }

  lemma RetriedStep(t: Task, acts: seq<Action>, a: Action)
    requires TaskInv(t) && !t.source.Scra? && Retried(t, acts) && Enabled(t, a)
    ensures Retried(Exec(t, a), acts + [a])
  {
    assert Call(Transient) in acts + [a] <==> Call(Transient) in acts || a == Call(Transient);
  }

  lemma {:induction false} RetriedAlways(t: Task, before: seq<Action>, acts: seq<Action>)
    requires TaskInv(t) && !t.source.Scra? && Retried(t, before) && Legal(t, acts)
    ensures Retried(ExecAll(t, acts), before + acts)
    decreases |acts|
  {
    if acts == [] {
      assert before + acts == before;
    } else {
      TaskInvStep(t, acts[0]);
      RetriedStep(t, before, acts[0]);
      RetriedAlways(Exec(t, acts[0]), before + [acts[0]], acts[1..]);
      assert before + [acts[0]] + acts[1..] == before + acts;
    }
  }

  /** A property or court task, which waits for the limiter at most once, makes at most one
      request if and only if it gets no transient answer. */
  lemma OneRequestIff(t: Task, acts: seq<Action>)
    requires t.pc.Begin? && t.made == 0 && !t.source.Scra? && Legal(t, acts) && ExecAll(t, acts).pc.Finished?
    ensures Tally(acts, IsCall) <= 1 <==> Call(Transient) !in acts
  {
    RunBooks(t, acts);
    RetriedAlways(t, [], acts);
    assert [] + acts == acts;
  }
}

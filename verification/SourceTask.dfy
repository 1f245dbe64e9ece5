/** One `processSource` goroutine as a machine: every interaction with the shared breaker,
    the limiter, the external service and the store is a step of its own, so that any
    number of tasks can be interleaved. */
module SourceTask {
  import opened Types
  import opened Retry

  /** What `PollResult` reports. */
  datatype PollOutcome =
    | StillPending
    | SearchComplete(data: string)
    | SearchError
    | PollTransient
    | PollPermanent

  datatype Pc =
    | Begin
    | AwaitToken
    | Calling(attempt: nat)
    | Sleeping(attempt: nat)
    | Polling(left: nat, tick: bool, searchId: string)  // seconds to the deadline, tick undelivered
    | Reporting(ok: bool, row: Row)
    | Writing(row: Row)
    | Finished

  /** `base` is the attempts value of the row the task was launched with; `made` counts
      the client calls it has made itself. */
  datatype Task = Task(source: Source, applicable: bool, base: nat, made: nat, pc: Pc)

  const POLL_SECONDS := 30
  const SUBMIT := Config(3, SECOND, 10 * SECOND, 2.0)

  function RetryConfig(source: Source): Config {
    if source.Scra? then SUBMIT else DEFAULT
  }

  function MaxCalls(source: Source): nat {
    RetryConfig(source).maxAttempts
  }

  /** Retried calls, plus one poll per second for SCRA. */
  function CallLimit(source: Source): nat {
    MaxCalls(source) + if source.Scra? then POLL_SECONDS else 0
  }

  function FailedRow(attempts: nat, why: Message, searchId: Option<string>): Row {
    Row(SFailed, attempts, None, Some(why), None, searchId)
  }

  function SuccessRow(attempts: nat, data: Option<string>, searchId: Option<string>): Row {
    Row(SSuccess, attempts, data, None, None, searchId)
  }

  function SkippedRow(attempts: nat): Row {
    Row(SNotApplicable, attempts, None, None, Some(NoCourtNumber), None)
  }

  datatype Action =
    | Skip                              // court records of a case without a court number
    | Ask(ok: bool)                     // breaker.Allow
    | Grant                             // limiter token
    | Call(out: Outcome<Option<string>>)
    | Wake                              // the backoff sleep is over
    | Tick                              // a second passes and the poll ticker fires
    | Poll(result: PollOutcome)
    | Expire                            // the 30 second poll deadline
    | Tell                              // breaker.RecordSuccess or RecordFailure
    | Write                             // SetSourceResult

  predicate Skipped(t: Task) {
    t.source.Court? && !t.applicable
  }

  predicate Enabled(t: Task, a: Action) {
    match a
    case Skip => t.pc.Begin? && Skipped(t)
    case Ask(_) => t.pc.Begin? && !Skipped(t)
    case Grant => t.pc.AwaitToken?
    // only a court search may succeed without a record
    case Call(out) => t.pc.Calling? && (out.Ok? && !t.source.Court? ==> out.value.Some?)
    case Wake => t.pc.Sleeping?
    case Tick => t.pc.Polling? && t.pc.left > 0
    case Poll(_) => t.pc.Polling? && t.pc.tick
    case Expire => t.pc.Polling? && t.pc.left == 0
    case Tell => t.pc.Reporting?
    case Write => t.pc.Writing?
  }

  function Exec(t: Task, a: Action): Task
    requires Enabled(t, a)
  {
    match a
    case Skip => t.(pc := Writing(SkippedRow(t.base)))
    case Ask(ok) =>
      if !ok then t.(pc := Writing(FailedRow(t.base, BreakerOpen, None)))
      else if t.source.Court? then t.(pc := AwaitToken)
      else t.(pc := Calling(1))
    case Grant => t.(pc := Calling(1))
    case Call(out) => AfterCall(t.(made := t.made + 1), t.pc.attempt, out)
    case Wake => t.(pc := Calling(t.pc.attempt + 1))
    case Tick => t.(pc := Polling(t.pc.left - 1, true, t.pc.searchId))
    case Poll(result) => AfterPoll(t.(made := t.made + 1), t.pc.(tick := false), result)
    case Expire =>
      t.(pc := Writing(FailedRow(t.base + t.made, PollTimedOut, Some(t.pc.searchId))))
    case Tell => t.(pc := Writing(t.pc.row))
    case Write => t.(pc := Finished)
  }

  function AfterCall(t: Task, attempt: nat, out: Outcome<Option<string>>): Task
    requires out.Ok? && !t.source.Court? ==> out.value.Some?
  {
    match out
    case Ok(value) =>
      if t.source.Scra? then t.(pc := Polling(POLL_SECONDS, false, value.value))
      else t.(pc := Reporting(true, SuccessRow(t.base + t.made, value, None)))
    case Permanent =>
      t.(pc := Reporting(false, FailedRow(t.base + t.made, CallFailed(true), None)))
    case Transient =>
      if attempt >= MaxCalls(t.source)
      then t.(pc := Reporting(false, FailedRow(t.base + t.made, CallFailed(false), None)))
      else t.(pc := Sleeping(attempt))
  }

  function AfterPoll(t: Task, waiting: Pc, result: PollOutcome): Task
    requires waiting.Polling?
  {
    var id := Some(waiting.searchId);
    match result
    case StillPending => t.(pc := waiting)
    case PollTransient => t.(pc := waiting)
    case SearchComplete(data) =>
      t.(pc := Reporting(true, SuccessRow(t.base + t.made, Some(data), id)))
    case SearchError => t.(pc := Reporting(false, FailedRow(t.base + t.made, SearchFailed, id)))
    case PollPermanent => t.(pc := Reporting(false, FailedRow(t.base + t.made, CallFailed(true), id)))
  }

  // -------------------------------------------------------------------------
  // What a task's state always satisfies
  // -------------------------------------------------------------------------

  /** Columns agree with the status, and only an inapplicable court row is skipped. */
  ghost predicate RowFits(r: Row, source: Source, applicable: bool) {
    && (r.searchId.Some? ==> source.Scra?)
    && (source.Court? && !applicable ==> r.status.SPending? || r.status.SNotApplicable?)
    && match r.status
       case SPending => r.data.None? && r.error.None? && r.reason.None?
       case SSuccess =>
         && r.error.None? && r.reason.None?
         && (source.Court? || r.data.Some?)
         && (source.Scra? ==> r.searchId.Some?)
       case SFailed => r.data.None? && r.error.Some? && r.reason.None?
       case SNotApplicable =>
         source.Court? && !applicable && r.data.None? && r.error.None? && r.reason == Some(NoCourtNumber)
  }

  ghost predicate TaskInv(t: Task) {
    && t.made <= CallLimit(t.source)
    && (Skipped(t) ==> t.pc.Begin? || t.pc.Writing? || t.pc.Finished?)
    && match t.pc
       case Begin => t.made == 0
       case AwaitToken => t.source.Court? && t.made == 0
       case Calling(k) => 1 <= k <= MaxCalls(t.source) && t.made == k - 1
       case Sleeping(k) => 1 <= k < MaxCalls(t.source) && t.made == k
       case Polling(left, tick, _) =>
         && t.source.Scra? && left <= POLL_SECONDS
         && 1 <= t.made <= MaxCalls(t.source) + POLL_SECONDS - left - (if tick then 1 else 0)
       case Reporting(ok, row) =>
         RowToWrite(t, row) && (ok <==> row.status.SSuccess?) && row.error != Some(PollTimedOut)
       case Writing(row) => RowToWrite(t, row)
       case Finished => true
  }

  ghost predicate RowToWrite(t: Task, row: Row) {
    && row.status.Terminal() && row.attempts == t.base + t.made
    && RowFits(row, t.source, t.applicable)
  }

  lemma TaskInvStep(t: Task, a: Action)
    requires TaskInv(t) && Enabled(t, a)
    ensures TaskInv(Exec(t, a))
    ensures var t' := Exec(t, a); t'.source == t.source && t'.applicable == t.applicable && t'.base == t.base
  {}

  /** Between a granted `Allow` and its report, or its poll timeout. */
  predicate InFlight(t: Task) {
    t.pc.AwaitToken? || t.pc.Calling? || t.pc.Sleeping? || t.pc.Polling? || t.pc.Reporting?
  }

  /** Bounds the steps a task still has to take. */
  function Measure(t: Task): nat {
    match t.pc
    case Begin => 80
    case AwaitToken => 79
    case Calling(k) => if k <= 5 then 66 + 2 * (6 - k) else 66
    case Sleeping(k) => if k <= 5 then 65 + 2 * (6 - k) else 65
    case Polling(left, tick, _) => 3 + 2 * (if left <= 30 then left else 30) + (if tick then 1 else 0)
    case Reporting(_, _) => 2
    case Writing(_) => 1
    case Finished => 0
  }

  /** Every step brings the end nearer, whatever the services answer. */
  lemma StepDecreases(t: Task, a: Action)
    requires TaskInv(t) && Enabled(t, a)
    ensures Measure(Exec(t, a)) < Measure(t)
  {}

  /** A task that has not finished can move, unless it waits for a limiter token. */
  lemma TaskNeverStuck(t: Task)
    requires TaskInv(t) && !t.pc.Finished?
    ensures t.pc.AwaitToken? ==> Enabled(t, Grant)
    ensures !t.pc.AwaitToken? && !(t.pc.Begin? && !Skipped(t)) ==> exists a :: Enabled(t, a) && !a.Ask? && !a.Grant?
    ensures t.pc.Begin? && !Skipped(t) ==> Enabled(t, Ask(true)) && Enabled(t, Ask(false))
  {
    match t.pc
    case Begin => if Skipped(t) { assert Enabled(t, Skip); }
    case AwaitToken =>
    case Calling(_) => assert Enabled(t, Call(Transient));
    case Sleeping(_) => assert Enabled(t, Wake);
    case Polling(left, _, _) => if left > 0 { assert Enabled(t, Tick); } else { assert Enabled(t, Expire); }
    case Reporting(_, _) => assert Enabled(t, Tell);
    case Writing(_) => assert Enabled(t, Write);
  }

  /** Nothing limits what the breaker and the services may answer. */
  lemma AnswersAreFree(t: Task, data: string, result: PollOutcome)
    ensures t.pc.Begin? && !Skipped(t) ==> Enabled(t, Ask(true)) && Enabled(t, Ask(false))
    ensures t.pc.Calling? ==>
              Enabled(t, Call(Transient)) && Enabled(t, Call(Permanent)) && Enabled(t, Call(Ok(Some(data))))
    ensures t.pc.Calling? && t.source.Court? ==> Enabled(t, Call(Ok(None)))
    ensures t.pc.Polling? && t.pc.tick ==> Enabled(t, Poll(result))
    ensures t.pc.Polling? ==> if t.pc.left > 0 then Enabled(t, Tick) else Enabled(t, Expire)
  {}

  // -------------------------------------------------------------------------
  // What a step counts for
  // -------------------------------------------------------------------------

  predicate IsCall(a: Action) {
    a.Call? || a.Poll?
  }

  predicate IsWrite(a: Action) {
    a.Write?
  }

  predicate IsAdmission(a: Action) {
    a == Ask(true)
  }

  predicate IsRelease(a: Action) {
    a.Tell? || a.Expire?
  }

  function Indicator(b: bool): nat {
    if b then 1 else 0
  }

  lemma StepBooks(t: Task, a: Action)
    requires TaskInv(t) && Enabled(t, a)
    ensures var t' := Exec(t, a);
            && t'.made == t.made + Indicator(IsCall(a))
            && Indicator(IsWrite(a)) == Indicator(t'.pc.Finished?) - Indicator(t.pc.Finished?)
            && Indicator(InFlight(t)) + Indicator(IsAdmission(a))
               == Indicator(InFlight(t')) + Indicator(IsRelease(a))
  {}
}

/** Vocabulary shared by every component of the integration gateway. */
module Types {

  datatype Option<+T> = None | Some(value: T)

  type CaseId = string

  /** Rows of lookup_runs carry one of four statuses. */
  datatype RunStatus = Pending | Complete | Partial | Failed

  /** The three sources; a run owns exactly one row for each. */
  datatype Source = Court | Property | Scra

  /** `ORDER BY source`: court_records, property_records, scra. */
  const ALL_SOURCES: seq<Source> := [Court, Property, Scra]

  datatype SourceStatus = SPending | SSuccess | SFailed | SNotApplicable {
    /** Statuses that `runLookup` skips and `GetRetryableSources` leaves out. */
    predicate Settled() {
      SSuccess? || SNotApplicable?
    }

    predicate Terminal() {
      !SPending?
    }
  }

  /** Error texts a row can carry; only their kind matters. */
  datatype Message =
    | BreakerOpen
    | CallFailed(permanent: bool)
    | SearchFailed
    | PollTimedOut
    | NoCourtNumber

  /** A row of lookup_sources, minus its keys and timestamps. */
  datatype Row = Row(
    status: SourceStatus,
    attempts: nat,
    data: Option<string>,
    error: Option<Message>,
    reason: Option<Message>,
    searchId: Option<string>)

  const FRESH_ROW := Row(SPending, 0, None, None, None, None)

  /** One value per source. */
  datatype PerSource<T> = PerSource(court: T, property: T, scra: T) {
    function At(s: Source): T {
      match s
      case Court => court
      case Property => property
      case Scra => scra
    }

    function With(s: Source, v: T): PerSource<T> {
      match s
      case Court => this.(court := v)
      case Property => this.(property := v)
      case Scra => this.(scra := v)
    }
  }

  type Rows = PerSource<Row>

  /** A run together with the three source rows that reference it. */
  datatype Run = Run(id: nat, status: RunStatus, completed: bool, rows: Rows)

  /** `processSource` goroutines are told apart by their case and their worker. */
  datatype Caller = Caller(caseId: CaseId, worker: nat)
}

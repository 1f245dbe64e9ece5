# Integration gateway: verified model of the enrichment engine

The gateway enriches foreclosure cases from three unreliable services: property records, court
records and the SCRA military-status check. This project models the engine behind
`POST /api/cases/{id}/enrich` and proves what it guarantees over every run.

- **Lookup protocol** (`LookupCase`, `LookupProtocol`, `LookupModes`, `LookupGuarantees`, `LookupRace`,
  `LookupOverlaps`, `LookupRestart`, on `RetriggerSteps` and `WorkerRuns`). For one
  case: any number of in-flight `TriggerLookup` calls and live `runLookup` goroutines around one
  persisted run. Each store call is a step of its own, so a trigger is not atomic. The strong
  invariants carry the hypothesis that re-triggers of one case do not overlap (`LegalApart`);
  what survives without it is proved separately, and so is that the hypothesis is exact: the step
  that ends it is the step from which each of five guarantees can be broken: the summary status,
  the finality of settled rows, the attempts columns, the one owner of a pending run, and that
  a re-trigger always finds something to retry. The first three and the last take answers of the
  services, so this exactness is that of the protocol machine, where breakers answer freely; in the
  gateway breakers that refuse every call stand in the way. The one owner is lost by steps of
  calls alone, and its exactness is proved in the gateway too.
- **Source tasks** (`SourceTask`, `TaskRuns`): one `processSource` goroutine as a machine of breaker calls,
  limiter grants, client calls, ticks and the row write.
- **Gateway** (`Gateway`, `GatewayBounds`, `GatewayGuarantees`, `GatewayBursts`, `GatewayLiveness`,
  `GatewayReports`, `GatewayBudgets`, `GatewayFairness`, `FairSchedules`):
  all cases, triggers, workers and tasks interleaved over the three shared breakers and the shared
  court limiter, over finite runs and over infinite schedules.
- **Primitives** as stateful classes proved against value-level specifications: `CircuitBreaker`,
  `RateLimiter`, `Retry` (with `RetryCap`), and the store (`LookupStore`), whose id-keyed tables represent the keyed
  view the protocol works on.
- **The sequential code** (`Orchestrator`, `TriggerSteps`, `TaskReports`): `TriggerLookup`, `runLookup`,
  `processProperty`, `processCourt`, `processSCRA` and `computeOverallStatus` as methods. Each
  processor is proved to be a run of the task machine, and the undisturbed trigger a run of the
  protocol machine, so what is proved of the machines holds of that code.
- **SCRA service** (`ScraService`): the asynchronous search lifecycle of the mock server, and a
  polling client against it.
- **Smaller cores**: the mock court limiter (`CourtLimiter`), the bulk worker pool (`BulkEnrich`),
  and the migration runner under failures, crashes and restarts (`Migrations`).

Time is an integer number of nanoseconds read from a monotone clock, except for polling and for the
searches of the SCRA service, which are counted in seconds. External services are outcome
streams: every theorem quantifies over all outcomes, jitter values, clock readings and schedules.

`dafny verify dfyconfig.toml` checks everything.

## Where the code and its prose differ

The model follows the code.

- Jitter is added after the cap (`retry.go:60-61`), so one delay may exceed MaxDelay, which
  is documented as an upper bound on any single delay; it stays below MaxDelay + 500 ms. The
  documented bound holds exactly when the last retry's base delay leaves room for the jitter
  (`RetryCap.CapHoldsIff`), as it does for both configurations in use.
  APPROACH.md speaks of ±500 ms and of a 16 s delay: jitter is never negative, and five attempts
  sleep four times, between 15 s and 17 s in all (`Retry.DefaultExhaustion`).
- `Wait` is documented as needed before every outbound request (`ratelimiter.go:54`); it runs once
  per retry loop, so only five searches per token are guaranteed (`GatewayBounds.CourtRequestBound`),
  not two requests per second; and that many do happen (`GatewayBursts.CourtRequestBoundIsTight`).
  One token pays for one request exactly when the first answer is not transient
  (`TaskRuns.OneRequestIff`, `GatewayBursts.OneSearchPerToken`).
- `State` is documented as a read for the health endpoint; it moves an open breaker to half-open
  without granting a probe; unless a call admitted earlier is still to report, nobody is admitted
  any more after that (`CircuitBreaker.HealthCheckStrands`, `CircuitBreaker.StrandsExactly`), in
  whatever case (`GatewayGuarantees.SourceEndsForAll`). An SCRA probe that ends in the poll timeout
  has the same effect, because that path never reports (`CircuitBreaker.AbandonedProbeStrands`).
- Nothing resumes the work of a process that died. A case whose run was pending then is answered
  200 for ever and never completed; every other case can still be
  (`LookupRestart.RecoverableIffNotPending`).
- `Do` with MaxAttempts below one returns nil without calling; the comment requires at least one.
- A migration's `failed` row is written inside the transaction that is then rolled back
  (`db.go:108-114`), so the check for previously failed migrations only ever fires on rows put
  there by other means; a failed migration is simply tried again (`Migrations.FailedRowsBlock`).
- Reading back the applied migrations does not check whether the iteration broke off
  (`db.go:63-71`). A file whose name was not reached is run again, and committed a second time if
  its script can be repeated; each file is applied at most once exactly when that does not happen
  (`Migrations.ExactlyOnce`, `Migrations.AppliedTwice`).
- The mock derives search ids from the clock. Two submissions in one clock reading share an id,
  and the goroutine of the first may then complete the second, which has no result
  (`ScraService.CollidingIds`).
- After `Stop` up to two callers may still be granted a token: one from the bucket and one the
  refill goroutine is about to deposit (`RateLimiter.AfterStop`). The ticker follows Go 1.23 and
  later, where stopping it discards an unreceived tick.

## Model

| member | source | states |
|---|---|---|
| LookupGuarantees.AnyNumberOfTriggers | backend/internal/lookup/orchestrator.go:69-163 | For any number of concurrent triggers in any overlap: exactly one commit creates the run, exactly one creating call has launched its worker or is about to, 202 answers and launched workers are equal in number, a pending run has an owner, `completed_at` is set exactly on runs that are not pending, columns agree with statuses, and no row is charged for calls not made |
| LookupProtocol.ExactlyOneCommit | backend/migrations/003_lookup_runs.sql:7 | UNIQUE(case_id) settles every first-creation race: along any run the insert succeeds exactly once if the run ends up existing and never otherwise |
| LookupProtocol.RunStays | backend/internal/store/lookup_store.go:146-170 | No sequence of steps ever removes a committed run or changes its id |
| LookupProtocol.Answers | backend/internal/lookup/orchestrator.go:101-163 | Along any run a call is answered 200, 202 or 500, and 500 exactly for every insert that came too late |
| LookupProtocol.CommittedCallsLaunch | backend/internal/lookup/orchestrator.go:123-162 | Whatever others do meanwhile, a call that has begun to reset or has created the run can only go on to launch its worker and answer 202 |
| LookupProtocol.LoadStarts | backend/internal/lookup/orchestrator.go:213-229 | A worker starts one task for each pending or failed source, with the attempts made so far, and none for the others |
| LookupProtocol.PendingOwnedStep | backend/internal/lookup/orchestrator.go:123-160 | Every step keeps: a pending run has a trigger about to launch a worker or a worker still to complete it |
| LookupProtocol.NeverOverchargedStep | backend/internal/store/lookup_store.go:215-253 | Every step keeps: no attempts column exceeds the client calls made for its source, with or without overlapping re-triggers |
| LookupProtocol.LaunchesStep | backend/internal/lookup/orchestrator.go:143-162 | Every step keeps the two launch counts: one creation means one pending or performed first launch, and one worker per 202 answer |
| LookupModes.ModeStep | backend/internal/lookup/orchestrator.go:95-163 | Without overlapping re-triggers every step of every trigger, task and worker keeps the case in one of five situations (no run, idle, half reset, launch due, busy), each naming who is responsible and tying status, rows, attempts and call counts together |
| LookupGuarantees.OneOwner | backend/internal/lookup/orchestrator.go:95-241 | Without overlap: a pending run has exactly one owner, any other run none, and unless a reset is under way the stored status is the summary of the current rows |
| LookupGuarantees.StatusTells | backend/internal/lookup/orchestrator.go:280-302 | Without overlap, once no source is pending: the stored status is complete iff no source has failed, failed iff one has and none succeeded, partial iff some have and some succeeded |
| LookupModes.OverallTells | backend/internal/lookup/orchestrator.go:280-302 | What each overall status says of the three rows, pending ones included |
| LookupModes.WorkerSummarises | backend/internal/lookup/orchestrator.go:231-240 | In whatever state it finds the case, a worker takes the summary of the rows as they are and stores that as the run's status, with completion |
| LookupGuarantees.AttemptsConserved | backend/internal/store/lookup_store.go:239-253 | Without overlap: whenever no worker is live, each attempts column equals all client calls ever made for that source, over all rounds |
| LookupGuarantees.SettledRowsAreFinal | backend/internal/lookup/orchestrator.go:216-227 | Without overlap: no later step of any round changes a successful or skipped row, and the set of retryable sources never grows |
| LookupGuarantees.CompleteIsFinal | backend/internal/lookup/orchestrator.go:101-108 | Without overlap: on a complete run later triggers change neither run nor workers nor call counts, and never get near a reset or launch |
| LookupGuarantees.CourtSkippedIffNoNumber | backend/internal/lookup/orchestrator.go:253-264 | However triggers overlap: a resolved court row is not_applicable exactly when the case has no court number; the other sources never are |
| LookupModes.RetryableRows | backend/internal/store/lookup_store.go:255-282 | The sources to retry are exactly the unsettled ones, each once, in the order of their names; there are none iff the summary is complete |
| LookupGuarantees.NothingToRetryUnreachable | backend/internal/lookup/orchestrator.go:116-121 | Without overlap the "everything succeeded somehow" branch is never entered |
| LookupRace.OverlapIsTheBreakingStep | backend/internal/lookup/orchestrator.go:95-144 | The hypothesis is exact: at any point of a run without overlap, the next step keeps re-triggers apart if and only if, without any further read of the run row, the status cannot come to misreport the rows; the same for a settled row being changed, for an attempts column losing calls, for the pending run having two owners, and for a re-trigger finding nothing to retry |
| LookupRace.EveryOverlapBreaks | backend/internal/lookup/orchestrator.go:112-143 | From every overlap, in whatever state of the case and wherever the other call stands, all five can be reached |
| LookupOverlaps.OverlapReopensCompleteRun | backend/internal/lookup/orchestrator.go:112-143 | For every case some run from its first call on reaches a complete run whose status and rows agree, and one more store call of a slow re-trigger undoes a settled row |
| LookupRace.OverlapShares | backend/internal/lookup/orchestrator.go:123-143 | From every overlap steps of the two calls alone lead to a pending run with two owners |
| LookupRace.OverlapFindsNothing | backend/internal/lookup/orchestrator.go:113-121 | From every overlap the slower call can come to the branch in which everything succeeded somehow |
| LookupRace.OverlapUndercharges | backend/internal/store/lookup_store.go:215-253 | From every overlap two workers can finish with an attempts column below the calls made |
| LookupOverlaps.OverlapsHappen | backend/internal/lookup/orchestrator.go:95-113 | For every case a run without overlap exists that one more read of the run row takes into an overlap |
| LookupRace.ApartUnlessRead | backend/internal/lookup/orchestrator.go:89 | No step but reading the run row can make re-triggers overlap |
| WorkerRuns.Completes | backend/internal/lookup/orchestrator.go:213-234 | In any state, a worker whose sources answer settles every row, charges what it called on top of what it loaded, and completes the run |
| LookupRestart.RecoverableIffNotPending | backend/internal/lookup/orchestrator.go:101-108 | After a crash in any state and a restart, some further run completes the case if and only if its run was not pending |
| LookupRestart.PendingIsLost | backend/internal/lookup/orchestrator.go:101-108 | A run that was pending then never changes again: no call launches a worker, and every call that answers answers 200 |
| TriggerSteps.TriggerAlone | backend/internal/lookup/orchestrator.go:76-163 | From any state of a case, a trigger nobody interleaves with takes the protocol machine exactly to the effect of the idempotency rules: create, retry or leave alone, 202 exactly when a worker is launched, nothing else touched; and by steps of this trigger only |
| RetriggerSteps.ResetSteps | backend/internal/store/lookup_store.go:241-253 | Every prefix of the reset loop, store call by store call, has reset exactly the sources it has come to |
| RetriggerSteps.RetrySteps | backend/internal/lookup/orchestrator.go:123-143 | From a list of sources, undisturbed, to all of them reset, the run pending and one worker launched |
| Orchestrator.TriggerRules | backend/internal/lookup/orchestrator.go:76-163 | A worker is launched exactly for a new case and for a partial or failed run with an unsettled source; otherwise the run stays, or is completed if nothing is left to retry |
| Orchestrator.RetryEffect | backend/internal/lookup/orchestrator.go:110-144 | A re-trigger that launches leaves a pending run with the same id in which exactly the unsettled rows are pending without data, error or reason, with their attempts and their search ids kept; and there was at least one |
| Orchestrator.Orchestrator.TriggerLookup | backend/internal/lookup/orchestrator.go:76-163 | Unknown cases change nothing; an existing run follows the idempotency rules; a new run gets an id no run had and three fresh rows |
| Orchestrator.Orchestrator.Retrigger | backend/internal/lookup/orchestrator.go:110-144 | The partial and failed branches have the effect of the idempotency rules on the store |
| Orchestrator.Orchestrator.ResetAll | backend/internal/lookup/orchestrator.go:123-134 | The listed rows are reset and the run becomes pending, everything else in the tables stays |
| Orchestrator.ComputeOverallStatus | backend/internal/lookup/orchestrator.go:280-302 | The counting loop yields complete iff every source succeeded or was skipped; failed iff some source failed and the others failed or were skipped; partial iff some source failed or is pending and some succeeded or is pending |
| Orchestrator.Orchestrator.RunLookup | backend/internal/lookup/orchestrator.go:200-241 | A worker leaves settled rows alone; every other row becomes what a run of its task writes on the answers the services gave, terminal, with attempts grown by at most the call limit; and the run is completed: complete iff none of its rows failed, failed iff some did and none succeeded, partial iff some did and some succeeded |
| Orchestrator.Orchestrator.RunSources | backend/internal/lookup/orchestrator.go:213-229 | The three tasks, one after the other in any order: each row is resolved once and no other run of the table is touched |
| Orchestrator.Orchestrator.RunSource | backend/internal/lookup/orchestrator.go:216-226 | One of them: a settled row is skipped, any other resolved by its task, the other rows stay |
| Orchestrator.Orchestrator.Summarise | backend/internal/lookup/orchestrator.go:231-234 | The run's status becomes the summary of the rows as they are in the store |
| Orchestrator.Orchestrator.ProcessSource | backend/internal/lookup/orchestrator.go:249-268 | Exactly one row is written, and the code's actions are a complete legal run of the task machine that ends in that row and whose calls got, in order, exactly the answers the services gave |
| Orchestrator.Orchestrator.ProcessProperty | backend/internal/lookup/process_property.go:14-69 | The same for property records; the run starts with the breaker's answer, and the breaker is left as that run says |
| Orchestrator.Orchestrator.FetchProperty | backend/internal/lookup/process_property.go:30-68 | The same from the admission on |
| Orchestrator.Orchestrator.WriteRefused | backend/internal/lookup/process_property.go:16-28 | A refused task writes a failed row with unchanged attempts and makes no call |
| Orchestrator.Report | backend/internal/lookup/process_property.go:40-57 | The breaker is told success exactly for a success row |
| Orchestrator.Orchestrator.ProcessCourt | backend/internal/lookup/process_court.go:14-87 | The same for court records; one limiter token is taken per admitted task, none by a refused one |
| Orchestrator.Orchestrator.SearchCourt | backend/internal/lookup/process_court.go:42-86 | The same from the limiter token on; no filing found is a success without data |
| Orchestrator.Orchestrator.TakeToken | backend/internal/lookup/process_court.go:30-40 | After any activity of ticker and refill goroutine, waiting ends with exactly one token taken |
| Orchestrator.Orchestrator.ProcessScra | backend/internal/lookup/process_scra.go:15-164 | The same for SCRA; a poll timeout is the one admitted ending that the breaker is not told of |
| Orchestrator.Orchestrator.SubmitScra | backend/internal/lookup/process_scra.go:31-164 | The same from the admission on, through both phases |
| Orchestrator.Orchestrator.FailSubmit | backend/internal/lookup/process_scra.go:53-67 | A failed submit writes the failed row with the calls made and is reported |
| Orchestrator.Orchestrator.AfterSubmit | backend/internal/lookup/process_scra.go:53-164 | Both endings of the submit phase, each the task run it amounts to |
| Orchestrator.Orchestrator.PollScra | backend/internal/lookup/process_scra.go:70-164 | The same from a successful submit on |
| Orchestrator.Orchestrator.GiveUp | backend/internal/lookup/process_scra.go:81-94 | The deadline branch writes the timeout row with all attempts and the search id, and leaves the breaker alone |
| Orchestrator.Orchestrator.FinishPoll | backend/internal/lookup/process_scra.go:100-151 | Error, complete and permanent poll answers each write their row and report accordingly |
| Orchestrator.PollLoop | backend/internal/lookup/process_scra.go:72-163 | For every schedule of ticks and deadline the select loop terminates within 30 polls, ends on the first deciding poll answer or, with none, at the deadline, and is a path of the task machine |
| TaskReports.SameReports | backend/internal/lookup/process_property.go:40-57 | The breaker calls of a finished task in the gateway, one after the other, leave a breaker exactly as the sequential code leaves it |
| Orchestrator.SubmitSearch | backend/internal/lookup/process_scra.go:31-70 | At most three calls, all but the last transient; the search id is the one of the successful call, otherwise the task ends in the failed row of its last error |
| Orchestrator.RetryLoopIsRun | backend/internal/resilience/retry.go:38-69 | Any number of failing calls before the last take a task through its retry loop, charging each call |
| Orchestrator.RetryCalls | backend/internal/lookup/process_court.go:42-80 | A whole `Do` inside a processor is a complete task run on the services' answers; its row is charged with every call, at least one and at most the configured number, and a success carries the record of the last of them |
| TaskRuns.FinishedTask | backend/internal/lookup/process_scra.go:17-164 | Any finished task wrote its row exactly once, as its last step, released its breaker admission exactly once (by a report or a poll timeout), stayed within its call limit and within 80 steps |
| TaskRuns.FinishedTaskRow | backend/internal/lookup/process_court.go:16-81 | The row written is terminal, charged with every call made, skipped exactly for inapplicable court records, with columns fitting its status |
| TaskRuns.RowTellsTheRun | backend/internal/lookup/process_scra.go:15-164 | The row is the truth about the run: success exactly when an answer succeeded, with that answer's data; skipped, breaker open, poll timeout, failed search and permanent error exactly when that happened; a transient error only after five fetches or searches, or three submits; and the search id is that of the submitted search, however it ended |
| TaskRuns.ConfiguredLimits | backend/internal/lookup/process_scra.go:32-97 | At most five fetches or searches, at most three submits, at most one poll per second for at most thirty seconds; and a poll timeout comes after exactly thirty |
| TaskRuns.RunBooks | backend/internal/lookup/process_scra.go:17-164 | From any point of a task, calls made, rows written, admissions and releases balance along any run, and run length plus remaining measure never exceeds the measure |
| TaskRuns.OneRequestIff | backend/internal/lookup/process_court.go:30-50 | A finished property or court task made at most one request if and only if it got no transient answer |
| SourceTask.StepDecreases | backend/internal/lookup/process_scra.go:73-163 | Every step of a task decreases its measure: remaining attempts, seconds to the deadline, the buffered tick |
| SourceTask.TaskNeverStuck | backend/internal/lookup/process_court.go:16-81 | A task that has not finished can always move, except that it may wait for a limiter token |
| SourceTask.AnswersAreFree | backend/internal/client/scra.go:83-199 | A task may get any answer: refused or admitted, success, transient or permanent failure, and any outcome of a poll |
| SourceTask.TaskInvStep | backend/internal/lookup/process_property.go:14-69 | Every step keeps a task's attempt counts, its deadline budget and the row it is about to write in order |
| Gateway.EnvironmentIsFree | backend/cmd/server/main.go:90-93 | Time, ticks, health queries and calls are never held up, and a task's step exactly by its breaker's answer or an empty bucket |
| GatewayBounds.BreakerAccounting | backend/internal/lookup/process_scra.go:17-164 | In every reachable state of the gateway: admitted calls = successes + failures + tasks in flight + abandoned ones, and only SCRA tasks are ever abandoned |
| GatewayBounds.CourtRequestBound | backend/internal/lookup/process_court.go:30-50 | Over any run with any number of cases: court searches <= 5 * limiter grants <= 5 * (1 + ticks) |
| GatewayBursts.CourtRequestBoundIsTight | backend/internal/lookup/process_court.go:30-50 | For every number n of ticks a run over n + 1 cases makes 5 * (1 + n) court searches |
| GatewayBursts.OneSearchPerToken | backend/internal/lookup/process_court.go:30-50 | Over any run with any number of cases in which no search fails transiently: court searches <= limiter grants |
| GatewayBounds.CaseProjection | backend/internal/lookup/orchestrator.go:76-241 | A run of the gateway seen from one case is a run of that case's protocol machine |
| GatewayGuarantees.CasesAreReached | backend/internal/lookup/orchestrator.go:76-241 | So the guarantees of the protocol hold in the composed system, where only this case's re-triggers must not overlap |
| GatewayGuarantees.OverlapIsTheSharingStep | backend/internal/lookup/orchestrator.go:95-143 | In the whole gateway: at any point of a run without overlap of the case's re-triggers, its next step keeps them apart if and only if, without any further read of its run row, its pending run cannot come to have two owners |
| GatewayGuarantees.HealthEndsSource | backend/internal/api/handler.go:172-175 | One health query for an idle source whose cooldown is over ends it for every case |
| GatewayGuarantees.SourceEndsForAll | backend/internal/resilience/circuitbreaker.go:59-62 | From a half-open breaker with no task in flight on, no task of any case is ever admitted for that source |
| GatewayBounds.BreakerProjection | backend/internal/resilience/circuitbreaker.go:44-109 | A run of the gateway seen from one breaker is a disciplined call sequence of that breaker |
| GatewayReports.BreakerBooks | backend/internal/lookup/process_property.go:40-57 | In the running gateway a breaker has booked as successes and failures exactly the rows of its source that succeeded and failed, as admissions and abandoned calls exactly the tasks let through and the poll timeouts, and its clock is the time passed |
| GatewayReports.ClosedIff | backend/internal/resilience/circuitbreaker.go:69-97 | A breaker of the gateway is closed if and only if fewer than five rows of its source have failed since the last that succeeded |
| GatewayReports.FiveFailures | backend/internal/resilience/circuitbreaker.go:52-57 | From the report of the fifth failed row on, until one succeeds, no task of any case is let through for thirty seconds; and if none has been and nobody asked for the state, the next is let through as soon as they are over |
| GatewayReports.OpenBreakerBound | backend/internal/resilience/circuitbreaker.go:52-57 | An open breaker of the gateway lets through at most one task per thirty seconds until the row of some task succeeds |
| GatewayBounds.IdleSourceRecovers | backend/internal/resilience/circuitbreaker.go:52-62 | Without health queries of its breaker, a source with no task in flight admits again after one cooldown; for SCRA provided no poll has timed out |
| GatewayBounds.InvAlways | backend/cmd/server/main.go:90-93 | The wiring's invariants (breaker books, token books, token conservation, all unrestricted protocol invariants of every case) hold along every run |
| GatewayLiveness.WorkerStepsBounded | backend/internal/lookup/orchestrator.go:213-234 | Whatever else happens, a worker takes at most 243 steps |
| GatewayLiveness.TokenArrives | backend/internal/resilience/ratelimiter.go:39-62 | From every state, firing, receiving and depositing at most once each put a token into the bucket without touching any case |
| GatewayLiveness.NextAction | backend/internal/lookup/orchestrator.go:213-234 | With a token in the bucket every live worker has an enabled step, whatever the shared breakers answer |
| GatewayBudgets.PendingRunsComplete | backend/internal/lookup/orchestrator.go:76-241 | However triggers overlapped so far, every case can still come to rest with its run not pending |
| GatewayBudgets.CaseStepsBounded | backend/internal/lookup/orchestrator.go:76-241 | In any run of the gateway a case takes at most 253 steps per call of TriggerLookup, those of all its workers and their services included |
| GatewayBudgets.QuiescentIsDead | backend/internal/lookup/orchestrator.go:200-241 | In a reachable state with a token in the bucket, a case in which nothing can happen but a new call has answered all calls, finished all workers, and its run is not pending |
| GatewayFairness.GoroutineEnds | backend/internal/lookup/orchestrator.go:76-241 | Along every infinite schedule that goes on bringing tokens and does not neglect that one goroutine, every call in progress and every worker takes its last step, however many calls keep arriving |
| GatewayFairness.EveryPendingRunCompletes | backend/internal/lookup/orchestrator.go:123-240 | Along every schedule fair to the goroutines of a case, each of its pending runs is completed at some moment, however calls overlap and however many keep arriving |
| GatewayFairness.EveryRunCompletes | backend/internal/lookup/orchestrator.go:76-241 | And once calls have stopped arriving the case comes to rest for good: all calls answered, no worker left, its run not pending |
| FairSchedules.FairSchedulesExist | backend/internal/lookup/orchestrator.go:76-241 | Every finite run continues as a fair schedule without further calls |
| FairSchedules.EndlessSchedulesExist | backend/internal/lookup/orchestrator.go:76-241 | And as a fair schedule in which calls for the case never stop arriving |
| CircuitBreaker.CircuitBreaker.constructor | backend/internal/resilience/circuitbreaker.go:31-39 | A new breaker is closed with no failures |
| CircuitBreaker.CircuitBreaker.Allow | backend/internal/resilience/circuitbreaker.go:44-67 | True when closed or when the cooldown is over, which it then half-opens; nothing else changes |
| CircuitBreaker.CircuitBreaker.RecordSuccess | backend/internal/resilience/circuitbreaker.go:69-76 | Closed with no failures, in whatever state it was |
| CircuitBreaker.CircuitBreaker.RecordFailure | backend/internal/resilience/circuitbreaker.go:78-97 | One more failure; it stays closed iff it was and is below the threshold; the time of opening changes exactly when it opens, to the time of this failure |
| CircuitBreaker.CircuitBreaker.State | backend/internal/resilience/circuitbreaker.go:99-109 | Answers the new state, and may leave an expired open state behind as half-open |
| CircuitBreaker.StateRefinesHistory | backend/internal/resilience/circuitbreaker.go:69-97 | For every call sequence: the counter is the number of failures since the last success, and the breaker is closed iff that is below the threshold |
| CircuitBreaker.AllowedBelowThreshold | backend/internal/resilience/circuitbreaker.go:48-50 | For every call sequence with fewer failures since the last success than the threshold, the next call is let through |
| CircuitBreaker.OpensForOneCooldown | backend/internal/resilience/circuitbreaker.go:52-97 | After the failure at t that reaches the threshold, and any late failures and early calls of Allow and State, a call at time u is let through if and only if u >= t + cooldown |
| CircuitBreaker.ReopensForOneCooldown | backend/internal/resilience/circuitbreaker.go:52-97 | Once somebody has taken the turn nobody else is let through; and when it ends with a failure at u, the next call is let through if and only if it comes at u + cooldown or later |
| CircuitBreaker.LateFailuresKeepOpenedAt | backend/internal/resilience/circuitbreaker.go:80-109 | Failures reported while the breaker is open, in any number and mixed with any calls of Allow and State before the cooldown is over, never move the time it opened |
| CircuitBreaker.AdmissionBound | backend/internal/resilience/circuitbreaker.go:44-109 | Once open and until a success, admitted * cooldown <= t - openedAt for every interleaving of Allow, State and late failures |
| CircuitBreaker.AdmissionBoundIsTight | backend/internal/resilience/circuitbreaker.go:52-57 | Every number of admissions is reached at exactly the time the bound permits |
| CircuitBreaker.LedgerAdmissionBound | backend/internal/resilience/circuitbreaker.go:44-109 | The same bound for concurrent callers that come, go and report late |
| CircuitBreaker.LedgerFollowsCalls | backend/internal/resilience/circuitbreaker.go:44-109 | Runs of disciplined callers are call sequences, so what holds of those holds of them |
| CircuitBreaker.LedgerCountsAdmissions | backend/internal/resilience/circuitbreaker.go:44-67 | The booked admissions are the Allow calls that answered true |
| CircuitBreaker.BalancedAlways | backend/internal/resilience/circuitbreaker.go:44-97 | Along every run admitted calls = successes + failures + abandoned + in flight |
| CircuitBreaker.IdleBreakerRecovers | backend/internal/resilience/circuitbreaker.go:52-62 | Without State calls and abandoned calls, half-open means the latest admitted caller has not reported, and an idle breaker admits after its cooldown |
| CircuitBreaker.StrandedForever | backend/internal/resilience/circuitbreaker.go:59-62 | Half-open with nobody in flight is absorbing: every later call is refused |
| CircuitBreaker.RecoverableIffNotStranded | backend/internal/resilience/circuitbreaker.go:44-109 | From any state of breaker and callers some further run admits a call if and only if the breaker is not half-open with nobody in flight |
| CircuitBreaker.StrandsExactly | backend/internal/resilience/circuitbreaker.go:99-109 | The only steps into that state: State on an idle breaker whose cooldown is over, and the last admitted caller leaving a half-open breaker unreported |
| CircuitBreaker.HealthCheckStrands | backend/internal/api/handler.go:172-175 | For every configuration a run with one health query, in which every caller reports, strands the breaker |
| CircuitBreaker.AbandonedProbeStrands | backend/internal/lookup/process_scra.go:81-94 | For every configuration a run with one unreported probe and no health query strands it |
| RateLimiter.TokensConserved | backend/internal/resilience/ratelimiter.go:22-62 | In every reachable state grants + bucket + dropped + lost + in transit = 1 + ticks with at most one token in the bucket; hence grants <= 1 + ticks |
| RateLimiter.WindowBound | backend/internal/resilience/ratelimiter.go:37-62 | In any window grants exceed deposit attempts by at most one, and ticks by at most what was already on its way |
| RateLimiter.AfterStop | backend/internal/resilience/ratelimiter.go:64-68 | After Stop at most bucket plus the refill goroutine's tick, so at most two, are granted |
| RateLimiter.AfterStopExact | backend/internal/resilience/ratelimiter.go:39-51 | And that many can be |
| RateLimiter.RateLimiter.constructor | backend/internal/resilience/ratelimiter.go:22-35 | A new limiter holds its seed token |
| RateLimiter.RateLimiter.Tick | backend/internal/resilience/ratelimiter.go:25 | The ticker keeps at most one unreceived tick |
| RateLimiter.RateLimiter.Receive | backend/internal/resilience/ratelimiter.go:44 | The refill goroutine takes the tick in hand |
| RateLimiter.RateLimiter.Refill | backend/internal/resilience/ratelimiter.go:45-48 | The bucket is full afterwards, and the tick is dropped exactly when it was full before |
| RateLimiter.RateLimiter.Wait | backend/internal/resilience/ratelimiter.go:55-62 | A granted wait takes the one token; a cancelled one takes nothing and only happens when the context is done |
| RateLimiter.RateLimiter.Stop | backend/internal/resilience/ratelimiter.go:65-68 | No tick comes after it, and an unreceived one is discarded |
| Retry.Do | backend/internal/resilience/retry.go:35-72 | For every outcome, cancellation and jitter stream: the calls, completed sleeps and error are those of the order-free specification, and the time slept is the sum of the delays |
| Retry.DoWithResult | backend/internal/resilience/retry.go:94-129 | The same specification, hence the same calls and error as Do, and the value of the successful call or zero |
| Retry.FinishedIsUnique | backend/internal/resilience/retry.go:35-129 | The specification determines calls, sleeps and error, so Do and DoWithResult agree |
| Retry.RetryGuarantees | backend/internal/resilience/retry.go:31-72 | Never more calls than configured, all but the last transient, none once the context is done, each error only for its reason, nil only after a success, every single delay below MaxDelay + 500 ms |
| RetryCap.CapHoldsIff | backend/internal/resilience/retry.go:14-18 | MaxDelay bounds every single delay of every execution, as documented, if and only if the last retry's base delay plus the largest jitter does not exceed it |
| RetryCap.SaturationBreaksCap | backend/internal/resilience/retry.go:60-61 | A configuration that reaches its cap has an execution with a delay above it |
| RetryCap.DefaultKeepsCap | backend/internal/resilience/retry.go:22-29 | The default configuration keeps its cap; with seven attempts it would not |
| RetryCap.SubmitKeepsCap | backend/internal/lookup/process_scra.go:32-37 | The submit configuration keeps its cap |
| RetryCap.Schedules | backend/internal/resilience/retry.go:22-29 | Default: five attempts with 1, 2, 4 and 8 s in between and a cap of 30 s; SCRA submit: three with 1 and 2 s and a cap of 10 s |
| Retry.TruncatesTowardsZero | backend/internal/resilience/retry.go:75-82 | Less than a nanosecond is lost, towards zero |
| Retry.BackoffShape | backend/internal/resilience/retry.go:74-82 | For Multiplier >= 1 the base delay is min(floor(InitialDelay * Multiplier^(k-1)), MaxDelay) and never shrinks |
| Retry.SaturationIsFinal | backend/internal/resilience/retry.go:78-80 | A delay that has reached the cap stays there |
| Retry.GeometricBounds | backend/internal/resilience/retry.go:75-82 | Before saturation and for any multiplier M >= 1: (M - 1) * total <= initial * (M^n - 1) <= (M - 1) * (total + n) |
| Retry.GeometricTotal | backend/internal/resilience/retry.go:75-82 | For whole multipliers the total is exactly the series |
| Retry.SaturatedTotal | backend/internal/resilience/retry.go:78-80 | Linear growth of the total after saturation |
| Retry.JitterTotal | backend/internal/resilience/retry.go:84-90 | n sleeps last at least the base delays and less than n * 500 ms more |
| Retry.DefaultExhaustion | backend/internal/resilience/retry.go:22-29 | Exhausting the default configuration makes five calls and sleeps in [15 s, 17 s) |
| LookupStore.LookupStore.constructor | backend/internal/store/lookup_store.go:19-22 | Empty tables represent the empty view |
| LookupStore.LookupStore.GetLookupRunByCaseID | backend/internal/store/lookup_store.go:84-100 | Finds the run of the case exactly when there is one |
| LookupStore.LookupStore.CreateLookupRun | backend/internal/store/lookup_store.go:102-144 | Fails exactly when the case has a run, and then leaves both tables as they were; else commits a new id, pending, with three pending rows without attempts, data, error, reason or search id |
| LookupStore.LookupStore.SetRunStatus | backend/internal/store/lookup_store.go:146-170 | An update by id reaches the one run with that id and changes status and completion only |
| LookupStore.LookupStore.CompleteRun | backend/internal/store/lookup_store.go:146-157 | Any status is set together with the completion time, of the one run with that id, nothing else |
| LookupStore.LookupStore.ResetRunToPending | backend/internal/store/lookup_store.go:159-170 | The run is pending without completion time, nothing else changes |
| LookupStore.LookupStore.SetSourceResult | backend/internal/store/lookup_store.go:215-237 | The row with that id is replaced in its run, all other rows and runs stay; an unknown id changes nothing |
| LookupStore.LookupStore.ResetSource | backend/internal/store/lookup_store.go:243-247 | The row is pending without data, error or reason and keeps its attempts and its search id; no other row is touched |
| LookupStore.LookupStore.ResetSourcesToPending | backend/internal/store/lookup_store.go:239-253 | For any list of ids, unknown and repeated ones included: exactly the listed rows are pending without data, error or reason, with their attempts and search ids kept, whoever they belong to |
| LookupStore.ResetOfOneRun | backend/internal/store/lookup_store.go:239-253 | A list of one run's rows is reset in that run only |
| LookupStore.LookupStore.GetSourcesByRunID | backend/internal/store/lookup_store.go:176-201 | Exactly the three rows of the run, in the order of their names; none for an unknown run |
| LookupStore.LookupStore.GetRetryableSources | backend/internal/store/lookup_store.go:255-282 | Exactly the ids of the pending and failed rows, in the order of their sources' names; none for an unknown run |
| LookupStore.ResetRowsAt | backend/internal/store/lookup_store.go:241-253 | Resetting a list, in whatever order and with whatever repetitions, resets exactly the listed sources |
| LookupStore.CommitAgrees | backend/migrations/004_lookup_sources.sql:1-13 | A committed creation keeps both UNIQUE constraints and the representation |
| LookupStore.UniqueRow | backend/migrations/004_lookup_sources.sql:12 | A row id is found by run and source exactly when it is the one recorded for them |
| LookupStore.RowsAreDistinct | backend/migrations/004_lookup_sources.sql:2-12 | A row id belongs to one case and one source |
| ScraService.ScraServer.PostSearch | mock-services/main.go:522-589 | A search without a last name is rejected and changes nothing; any other is stored pending with its result prepared, and its goroutine started |
| ScraService.ScraServer.Finish | mock-services/main.go:579-593 | A search goroutine flips the search stored under its id, once |
| ScraService.ScraServer.GetResult | mock-services/main.go:614-665 | The answer to a poll, as the client's PollResult reports it: a permanent failure for an unknown id, pending and error by status, complete with the stored result |
| ScraService.SoundStep | mock-services/main.go:547-593 | A step keeps goroutines and results consistent if and only if it is not a submission under an id for which a goroutine of the other fate is still asleep |
| ScraService.CollidingIds | mock-services/main.go:547 | Two submissions with one id can end as a complete search without a result |
| ScraService.LeavesPendingOnce | mock-services/main.go:553-593 | With distinct ids, over any run: a search leaves pending exactly once, then never changes; complete means a result, error means none |
| ScraService.PolledToTheEnd | backend/internal/lookup/process_scra.go:72-163 | With distinct ids, timely polls and no transport errors, a search of d seconds with d + 1 < 30 is resolved within d + 1 polls among any other searches: the deadline is never enabled, the row is the success with the report iff the search succeeds, and somebody can always move |
| ScraService.DeadlineStrikesIff | backend/internal/lookup/process_scra.go:73-97 | The bound is exact: some timely run enables the deadline if and only if d + 1 >= 30 |
| CourtLimiter.CourtRateLimiter.constructor | mock-services/main.go:436-440 | A new limiter is full |
| CourtLimiter.CourtRateLimiter.Allow | mock-services/main.go:418-433 | Answer and new state are those of the bucket specification |
| CourtLimiter.BurstBound | mock-services/main.go:418-433 | Requests within less than k seconds get at most (k + 1) * maxPerSec grants; within less than one second, twice maxPerSec |
| CourtLimiter.SubSecondBoundIsTight | mock-services/main.go:423-426 | Twice maxPerSec grants do happen, one nanosecond apart |
| CourtLimiter.NeverAboveTheBrim | mock-services/main.go:423-431 | No run of requests leaves more than maxPerSec tokens in the bucket |
| BulkEnrich.EveryIndexOnce | backend/internal/api/handler.go:221-265 | For any id list with repetitions and any interleaving of producer and min(3, n) workers: no index is called twice, results appear only at returned indices, the workers have left after exactly 3n + min(3, n) + 1 steps and not before, and then every index has been called once and holds its own result |
| BulkEnrich.NeverStuck | backend/internal/api/handler.go:234-265 | As long as a worker is left, the producer or a worker can move |
| BulkEnrich.Respond | backend/internal/api/handler.go:202-275 | An empty list is answered 400 without any call; else 202 with results[i] naming caseIds[i] with status complete for 200, triggered for 202 and error with its message, every index called exactly once, for every schedule |
| BulkEnrich.TakenInOrder | backend/internal/api/handler.go:225-236 | Whatever the interleaving, the indices are taken in the order in which they were pushed |
| BulkEnrich.HeldOnce | backend/internal/api/handler.go:238-256 | The index a worker holds has been pushed and its call has not returned elsewhere |
| Migrations.Migrator.ListApplied | backend/internal/store/db.go:55-71 | The map holds exactly the file names recorded as applied that the read gets to |
| Migrations.Migrator.ListFiles | backend/internal/store/db.go:73-84 | The selected files, sorted |
| Migrations.FilesInOrder | backend/internal/store/db.go:73-84 | In whatever order the directory is read: exactly its files, not directories, ending in .sql, each once, ascending character by character |
| Migrations.Migrator.ApplyFile | backend/internal/store/db.go:98-133 | A file becomes durable together with its record or not at all, in each of its endings, including crashes and lost commit acknowledgements |
| Migrations.Migrator.RunMigrations | backend/internal/store/db.go:18-137 | Database and error after a run are those of the specification, for every sequence of endings |
| Migrations.RunExtendsPrefix | backend/internal/store/db.go:55-136 | From an applied prefix a run reaches a longer or equal prefix if and only if it does not commit again a file whose name it failed to read; and then it returns nil if and only if nothing it comes to goes wrong, and all files are applied |
| Migrations.ExactlyOnce | backend/internal/store/db.go:18-137 | Over any sequence of runs, failures and crashes: the committed effects are a prefix of the file list, none twice, exactly those recorded, if and only if no run commits a file again whose name it failed to read |
| Migrations.WholeReadsNeverRepeat | backend/internal/store/db.go:55-71 | Runs that read the whole table never do |
| Migrations.AppliedTwice | backend/internal/store/db.go:63-71 | A broken read does lead to a file being committed twice |
| Migrations.FailedRowsBlock | backend/internal/store/db.go:30-53 | No run makes a failed row durable, from any recorded start; while one exists every run is refused and changes nothing |
| Migrations.PrefixNeeded | backend/internal/store/db.go:91-95 | A successful run leaves the file list in order if and only if it started from a prefix of it and repeated nothing |
| Migrations.LateFile | backend/internal/store/db.go:91-95 | A file sorting before an applied one is applied after it |

## Left out

- Context cancellation inside workers: the functions given to the errgroup always return nil and the root context is Background, so the cancellation exits of `Do` and `Wait` are proved for the primitives but not composed into the source tasks.
- Store errors: store calls are assumed to succeed in the protocol; several of their errors are ignored by the code, and a failed read at orchestrator.go:232 would summarise no rows at all.
- PostgreSQL: each store call is one atomic update of two tables with their two UNIQUE constraints; isolation levels, pools, foreign keys and timestamps are not modelled, generated UUIDs are fresh numbers.
- Orchestrator.Orchestrator.RunLookup: runs the three tasks one after the other, in any order; their interleavings are the subject of the `Gateway` machine instead.
- Orchestrator.Orchestrator.TriggerLookup: describes a call nobody interleaves with; interleaved calls are the subject of `LookupCase`. The goroutine it starts is a `Launched` result.
- LookupRace.OverlapIsTheBreakingStep: speaks of the protocol machine of a single case, where breakers answer freely; in the `Gateway` machine only its statement about owners is proved to be exact (`GatewayGuarantees.OverlapIsTheSharingStep`), because the other breakages need tasks that the breakers let through.
- LookupRestart.RecoverableIffNotPending: a crash is between two steps of the case; breakers and limiter, which a restart also resets, are not part of it.
- Circuit breaker: each critical section reads the clock once (RecordFailure reads it twice in the code); `Failures()` and `Name()` are plain reads.
- RateLimiter.RateLimiter.Wait: a blocked caller is a call that has not started; the tick interval as a duration is not modelled, bounds are stated in ticks.
- GatewayFairness.GoroutineEnds: that the runtime schedules the goroutine and that the ticker fires is its hypothesis, not a theorem about this code.
- Floating point: Multiplier and the power are reals with truncation, not float64.
- The poll deadline: ticks stop at the deadline and seconds pass as units; a poll cut off by the deadline context counts as a transient answer.
- HTTP, JSON and XML: client calls are outcomes (ok, transient, permanent; for polls pending, complete, error); URL building, decoding and error texts are not modelled.
- ScraService.PolledToTheEnd: "timely" means that search goroutines and polls are late by less than a second; transport errors are excluded there and allowed in the task machine.
- BulkEnrich.Respond: answers of `TriggerLookup` are given per index; label accuracy is not claimed, since code 200 is also returned for a pending run but labelled complete.
- Migrations.Migrator.RunMigrations: one runner at a time over a fixed directory; script contents are single effects.
- Property mock, court mock responses, mock data tables, the remaining handlers, status response building, seeding, logging, Docker files and scripts are not modelled.

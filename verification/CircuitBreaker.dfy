/** The circuit breaker: its state, the class that mutates it, and what holds of
    every sequence of calls made by any number of concurrent callers. */
module CircuitBreaker {
  import opened Types

  datatype CBState = Closed | Open | HalfOpen

  datatype Breaker = Breaker(
    maxFailures: int,
    cooldown: int,
    state: CBState,
    failures: int,
    lastFailure: int,
    openedAt: int)

  function Fresh(maxFailures: int, cooldown: int): Breaker {
    Breaker(maxFailures, cooldown, Closed, 0, 0, 0)
  }

  /** The open state has outlived its cooldown. */
  predicate Cooled(b: Breaker, now: int) {
    b.state.Open? && now - b.openedAt >= b.cooldown
  }

  predicate Admits(b: Breaker, now: int) {
    b.state.Closed? || Cooled(b, now)
  }

  datatype Call = Allow | Success | Failure | Peek

  /** A call and the clock reading taken inside its critical section. */
  datatype TimedCall = TimedCall(call: Call, at: int)

  function After(b: Breaker, c: TimedCall): Breaker {
    match c.call
    case Allow => if Cooled(b, c.at) then b.(state := HalfOpen) else b
    case Peek => if Cooled(b, c.at) then b.(state := HalfOpen) else b
    case Success => b.(failures := 0, state := Closed)
    case Failure =>
      var counted := b.(failures := b.failures + 1, lastFailure := c.at);
      if b.state.HalfOpen? || (b.state.Closed? && counted.failures >= b.maxFailures)
      then counted.(state := Open, openedAt := c.at)
      else counted
  }

  // -------------------------------------------------------------------------
  // The mutable object
  // -------------------------------------------------------------------------

  class CircuitBreaker {
    const name: string
    const maxFailures: int
    const cooldown: int
    var state: CBState
    var failures: int
    var lastFailure: int
    var openedAt: int

    ghost function Value(): Breaker
      reads this
    {
      Breaker(maxFailures, cooldown, state, failures, lastFailure, openedAt)
    }

    constructor (name: string, maxFailures: int, cooldown: int)
      ensures Value() == Fresh(maxFailures, cooldown)
      ensures state.Closed? && failures == 0 && this.maxFailures == maxFailures && this.cooldown == cooldown
      ensures this.name == name
    {
      this.name := name;
      this.maxFailures := maxFailures;
      this.cooldown := cooldown;
      state, failures, lastFailure, openedAt := Closed, 0, 0, 0;
    }

    method Allow(now: int) returns (ok: bool)
      modifies this
      ensures ok == Admits(old(Value()), now)
      ensures Value() == After(old(Value()), TimedCall(Call.Allow, now))
      ensures ok <==> old(state).Closed? || (old(state).Open? && now >= old(openedAt) + cooldown)
      ensures state == if ok && old(state).Open? then HalfOpen else old(state)
      ensures failures == old(failures) && lastFailure == old(lastFailure) && openedAt == old(openedAt)
    {
      match state
      case Closed =>
        return true;
      case Open =>
        if now - openedAt >= cooldown {
          state := HalfOpen;
          return true;
        }
        return false;
      case HalfOpen =>
        return false;
    }

    method RecordSuccess()
      modifies this
      ensures forall at :: Value() == After(old(Value()), TimedCall(Success, at))
      ensures state.Closed? && failures == 0 && lastFailure == old(lastFailure) && openedAt == old(openedAt)
    {
      failures := 0;
      state := Closed;
    }

    method RecordFailure(now: int)
      modifies this
      ensures Value() == After(old(Value()), TimedCall(Failure, now))
      ensures failures == old(failures) + 1 && lastFailure == now && !state.HalfOpen?
      ensures state.Closed? <==> old(state).Closed? && old(failures) + 1 < maxFailures
      ensures openedAt == if state.Open? && !old(state).Open? then now else old(openedAt)
    {
      failures := failures + 1;
      lastFailure := now;
      match state
      case Closed =>
        if failures >= maxFailures {
          state := Open;
          openedAt := now;
        }
      case HalfOpen =>
        state := Open;
        openedAt := now;
      case Open =>
    }

    method State(now: int) returns (s: CBState)
      modifies this
      ensures Value() == After(old(Value()), TimedCall(Peek, now))
      ensures s == state
      ensures state == if old(state).Open? && now >= old(openedAt) + cooldown then HalfOpen else old(state)
      ensures failures == old(failures) && lastFailure == old(lastFailure) && openedAt == old(openedAt)
    {
      if state == Open && now - openedAt >= cooldown {
        state := HalfOpen;
      }
      return state;
    }
  }

  // -------------------------------------------------------------------------
  // Arbitrary call sequences
  // -------------------------------------------------------------------------

  function AfterAll(b: Breaker, h: seq<TimedCall>): Breaker {
    if h == [] then b else After(AfterAll(b, h[..|h| - 1]), h[|h| - 1])
  }

  /** Consecutive failures, read off the history alone: those since the last success. */
  function FailuresSinceSuccess(h: seq<TimedCall>): nat {
    if h == [] then 0
    else match h[|h| - 1].call
      case Success => 0
      case Failure => FailuresSinceSuccess(h[..|h| - 1]) + 1
      case Allow => FailuresSinceSuccess(h[..|h| - 1])
      case Peek => FailuresSinceSuccess(h[..|h| - 1])
  }

  /** A breaker configured with less than one tolerated failure behaves like one with one. */
  function Threshold(maxFailures: int): int {
    if maxFailures < 1 then 1 else maxFailures
  }

  /** Whatever the calls, their order and their times, the counter and the closed state
      are functions of the history. */
  lemma {:induction false} StateRefinesHistory(maxFailures: int, cooldown: int, h: seq<TimedCall>)
    ensures var b := AfterAll(Fresh(maxFailures, cooldown), h);
            && b.failures == FailuresSinceSuccess(h)
            && (b.state.Closed? <==> FailuresSinceSuccess(h) < Threshold(maxFailures))
            && b.maxFailures == maxFailures && b.cooldown == cooldown
  {
    if h != [] {
      StateRefinesHistory(maxFailures, cooldown, h[..|h| - 1]);
    }
  }

  /** Failures reported late, while the breaker is already open, never extend the cooldown,
      whatever calls of `Allow` and `State` come between them before it is over. */
  lemma {:induction false} LateFailuresKeepOpenedAt(b: Breaker, h: seq<TimedCall>)
    requires b.state.Open?
    requires forall c <- h :: c.call.Failure? || (!c.call.Success? && c.at - b.openedAt < b.cooldown)
    ensures var r := AfterAll(b, h); r.state.Open? && r.openedAt == b.openedAt && r.cooldown == b.cooldown
  {
    if h != [] {
      var prev := h[..|h| - 1];
      assert forall c <- prev :: c in h;
      LateFailuresKeepOpenedAt(b, prev);
      assert h[|h| - 1] in h;
    }
  }

  /** What the breaker answers to `Allow` at `at`, after history `h`. */
  predicate AllowedAfter(maxFailures: int, cooldown: int, h: seq<TimedCall>, at: int) {
    Admits(AfterAll(Fresh(maxFailures, cooldown), h), at)
  }

  /** The last call is the failure that exhausts the tolerated ones. */
  ghost predicate Trips(maxFailures: int, h: seq<TimedCall>) {
    h != [] && h[|h| - 1].call.Failure? && FailuresSinceSuccess(h) == Threshold(maxFailures)
  }

  /** Late failures, and calls of `Allow` and `State` within a cooldown after `t`. */
  ghost predicate TooEarly(k: seq<TimedCall>, t: int, cooldown: int) {
    forall c <- k :: c.call.Failure? || (!c.call.Success? && c.at < t + cooldown)
  }

  /** Read off the history: below the threshold every call is let through. */
  lemma AllowedBelowThreshold(maxFailures: int, cooldown: int, h: seq<TimedCall>, at: int)
    requires FailuresSinceSuccess(h) < Threshold(maxFailures)
    ensures AllowedAfter(maxFailures, cooldown, h, at)
  {
    StateRefinesHistory(maxFailures, cooldown, h);
  }

  /** The failure that reaches the threshold closes the way for one cooldown, counted from
      that failure, whatever late failures and early calls follow; and not for longer. */
  lemma OpensForOneCooldown(maxFailures: int, cooldown: int, h: seq<TimedCall>, k: seq<TimedCall>, at: int)
    requires Trips(maxFailures, h) && TooEarly(k, h[|h| - 1].at, cooldown)
    ensures AllowedAfter(maxFailures, cooldown, h + k, at) <==> at >= h[|h| - 1].at + cooldown
  {
    var b0 := Fresh(maxFailures, cooldown);
    StateRefinesHistory(maxFailures, cooldown, h[..|h| - 1]);
    StateRefinesHistory(maxFailures, cooldown, h);
    LateFailuresKeepOpenedAt(AfterAll(b0, h), k);
    AfterAllAppend(b0, h, k);
  }

  /** Then one probe, or one question for the state, takes the next turn: nobody else is
      let through until somebody reports. */
  lemma {:induction false} NobodyElse(b: Breaker, k: seq<TimedCall>)
    requires b.state.HalfOpen? && forall c <- k :: c.call.Allow? || c.call.Peek?
    ensures AfterAll(b, k) == b
  {
    if k != [] {
      assert k[|k| - 1] in k && forall c <- k[..|k| - 1] :: c in k;
      NobodyElse(b, k[..|k| - 1]);
    }
  }

  /** The turn taken at `probe` ends with a failure at `late`: closed again for one cooldown
      from there on. */
  lemma ReopensForOneCooldown(maxFailures: int, cooldown: int, h: seq<TimedCall>, early: seq<TimedCall>,
                              probe: TimedCall, mid: seq<TimedCall>, late: int, k: seq<TimedCall>, at: int)
    requires Trips(maxFailures, h) && TooEarly(early, h[|h| - 1].at, cooldown)
    requires (probe.call.Allow? || probe.call.Peek?) && probe.at >= h[|h| - 1].at + cooldown
    requires (forall c <- mid :: c.call.Allow? || c.call.Peek?) && TooEarly(k, late, cooldown)
    ensures !AllowedAfter(maxFailures, cooldown, h + early + [probe] + mid, at)
    ensures AllowedAfter(maxFailures, cooldown, h + early + [probe] + mid + [TimedCall(Failure, late)] + k, at)
            <==> at >= late + cooldown
  {
    var b0 := Fresh(maxFailures, cooldown);
    OpensForOneCooldown(maxFailures, cooldown, h, early, probe.at);
    var taken := h + early + [probe];
    StateRefinesHistory(maxFailures, cooldown, h + early);
    StillTripped(h, early);
    assert taken[..|taken| - 1] == h + early;
    var half := AfterAll(b0, taken);
    NobodyElse(half, mid);
    AfterAllAppend(b0, taken, mid);
    var failed := taken + mid + [TimedCall(Failure, late)];
    assert failed[..|failed| - 1] == taken + mid;
    LateFailuresKeepOpenedAt(AfterAll(b0, failed), k);
    AfterAllAppend(b0, failed, k);
  }

  lemma {:induction false} StillTripped(h: seq<TimedCall>, k: seq<TimedCall>)
    requires forall c <- k :: !c.call.Success?
    ensures FailuresSinceSuccess(h + k) >= FailuresSinceSuccess(h)
  {
    if k == [] {
      assert h + k == h;
    } else {
      assert (h + k)[..|h + k| - 1] == h + k[..|k| - 1] && k[|k| - 1] in k;
      StillTripped(h, k[..|k| - 1]);
    }
  }

  /** The clock never runs backwards, and the history starts no earlier than `from`. */
  ghost predicate Chronological(from: int, h: seq<TimedCall>) {
    h == []
    || (Chronological(from, h[..|h| - 1]) && LastTime(from, h[..|h| - 1]) <= h[|h| - 1].at)
  }

  function LastTime(from: int, h: seq<TimedCall>): int {
    if h == [] then from else h[|h| - 1].at
  }

  /** The number of `Allow` calls in the history that answered true. */
  function Admitted(b: Breaker, h: seq<TimedCall>): nat {
    if h == [] then 0
    else
      var last := h[|h| - 1];
      Admitted(b, h[..|h| - 1])
      + (if last.call.Allow? && Admits(AfterAll(b, h[..|h| - 1]), last.at) then 1 else 0)
  }

  lemma {:induction false} AdmissionInvariant(b: Breaker, h: seq<TimedCall>)
    requires b.state.Open? && Chronological(b.openedAt, h)
    requires forall c <- h :: !c.call.Success?
    ensures var r := AfterAll(b, h);
            && !r.state.Closed? && r.cooldown == b.cooldown
            && b.openedAt <= r.openedAt <= LastTime(b.openedAt, h)
            && (r.state.Open? ==> Admitted(b, h) * b.cooldown <= r.openedAt - b.openedAt)
            && Admitted(b, h) * b.cooldown <= LastTime(b.openedAt, h) - b.openedAt
  {
    if h != [] {
      var prev := h[..|h| - 1];
      assert forall c <- prev :: c in h;
      AdmissionInvariant(b, prev);
      assert h[|h| - 1] in h;
      var n := Admitted(b, prev);
      assert (n + 1) * b.cooldown == n * b.cooldown + b.cooldown;
    }
  }

  /** Once open, and until some call succeeds, a breaker lets at most one call through
      per cooldown, however `Allow`, `State` and late failure reports interleave. */
  lemma AdmissionBound(b: Breaker, h: seq<TimedCall>, t: int)
    requires b.state.Open? && Chronological(b.openedAt, h) && LastTime(b.openedAt, h) <= t
    requires forall c <- h :: !c.call.Success?
    ensures Admitted(b, h) * b.cooldown <= t - b.openedAt
  {
    AdmissionInvariant(b, h);
  }

  /** Probes that fail at once, taken as early as the breaker grants them. */
  function EagerProbes(b: Breaker, n: nat): seq<TimedCall> {
    if n == 0 then []
    else
      var at := b.openedAt + n * b.cooldown;
      EagerProbes(b, n - 1) + [TimedCall(Allow, at), TimedCall(Failure, at)]
  }

  lemma OneMoreProbe(b: Breaker, h: seq<TimedCall>, at: int)
    requires Chronological(b.openedAt, h) && LastTime(b.openedAt, h) <= at
    requires Cooled(AfterAll(b, h), at)
    ensures var h' := h + [TimedCall(Allow, at), TimedCall(Failure, at)];
            && Chronological(b.openedAt, h') && LastTime(b.openedAt, h') == at
            && Admitted(b, h') == Admitted(b, h) + 1
            && AfterAll(b, h').state.Open? && AfterAll(b, h').openedAt == at
            && AfterAll(b, h').cooldown == AfterAll(b, h).cooldown
  {
    var h1 := h + [TimedCall(Allow, at)];
    var h2 := h1 + [TimedCall(Failure, at)];
    assert h1[..|h1| - 1] == h && h2[..|h2| - 1] == h1;
    assert h2 == h + [TimedCall(Allow, at), TimedCall(Failure, at)];
  }

  lemma {:induction false} EagerProbesAdmitted(b: Breaker, n: nat)
    requires b.state.Open? && b.cooldown >= 0
    ensures var h := EagerProbes(b, n);
            && Chronological(b.openedAt, h)
            && (forall c <- h :: !c.call.Success?)
            && Admitted(b, h) == n
            && LastTime(b.openedAt, h) == b.openedAt + n * b.cooldown
            && AfterAll(b, h).state.Open?
            && AfterAll(b, h).openedAt == b.openedAt + n * b.cooldown
            && AfterAll(b, h).cooldown == b.cooldown
  {
    if n > 0 {
      EagerProbesAdmitted(b, n - 1);
      var at := b.openedAt + n * b.cooldown;
      assert at == b.openedAt + (n - 1) * b.cooldown + b.cooldown;
      OneMoreProbe(b, EagerProbes(b, n - 1), at);
    }
  }

  /** The bound is exact: every count is reached at the earliest time the bound permits. */
  lemma AdmissionBoundIsTight(b: Breaker, n: nat)
    requires b.state.Open? && b.cooldown >= 0
    ensures exists h: seq<TimedCall> ::
      && Chronological(b.openedAt, h)
      && (forall c <- h :: !c.call.Success?)
      && Admitted(b, h) == n
      && LastTime(b.openedAt, h) == b.openedAt + n * b.cooldown
  {
    EagerProbesAdmitted(b, n);
    assert Admitted(b, EagerProbes(b, n)) == n;
  }

  // -------------------------------------------------------------------------
  // Disciplined callers: report only after being admitted
  // -------------------------------------------------------------------------

  datatype Event =
    | Ask(who: Caller, ok: bool)      // Allow, and what it answered
    | Report(who: Caller, ok: bool)   // RecordSuccess or RecordFailure
    | Abandon(who: Caller)            // an admitted call that ends without a report
    | Inspect                         // State, from the health endpoint
    | Elapse(d: nat)

  /** A breaker, the clock, and the books kept on its callers. */
  datatype Ledger = Ledger(
    now: int,
    b: Breaker,
    inFlight: set<Caller>,
    latest: Option<Caller>,
    admitted: nat,
    successes: nat,
    failures: nat,
    abandoned: nat)

  function FreshLedger(maxFailures: int, cooldown: int): Ledger {
    Ledger(0, Fresh(maxFailures, cooldown), {}, None, 0, 0, 0, 0)
  }

  predicate Possible(l: Ledger, e: Event) {
    match e
    case Ask(who, ok) => who !in l.inFlight && ok == Admits(l.b, l.now)
    case Report(who, _) => who in l.inFlight
    case Abandon(who) => who in l.inFlight
    case Inspect => true
    case Elapse(_) => true
  }

  function Next(l: Ledger, e: Event): Ledger {
    match e
    case Ask(who, ok) =>
      var asked := l.(b := After(l.b, TimedCall(Allow, l.now)));
      if ok
      then asked.(inFlight := l.inFlight + {who}, latest := Some(who), admitted := l.admitted + 1)
      else asked
    case Report(who, ok) =>
      var gone := l.(inFlight := l.inFlight - {who});
      if ok
      then gone.(b := After(l.b, TimedCall(Success, l.now)), successes := l.successes + 1)
      else gone.(b := After(l.b, TimedCall(Failure, l.now)), failures := l.failures + 1)
    case Abandon(who) =>
      l.(inFlight := l.inFlight - {who}, abandoned := l.abandoned + 1)
    case Inspect => l.(b := After(l.b, TimedCall(Peek, l.now)))
    case Elapse(d) => l.(now := l.now + d)
  }

  predicate PossibleAll(l: Ledger, es: seq<Event>)
    decreases |es|
  {
    es == [] || (Possible(l, es[0]) && PossibleAll(Next(l, es[0]), es[1..]))
  }

  function NextAll(l: Ledger, es: seq<Event>): Ledger
    decreases |es|
  {
    if es == [] then l else NextAll(Next(l, es[0]), es[1..])
  }

  lemma {:induction false} AppendEvents(l: Ledger, es: seq<Event>, fs: seq<Event>)
    ensures NextAll(l, es + fs) == NextAll(NextAll(l, es), fs)
    ensures PossibleAll(l, es + fs) <==> PossibleAll(l, es) && PossibleAll(NextAll(l, es), fs)
    decreases |es|
  {
    if es == [] {
      assert es + fs == fs;
    } else {
      assert (es + fs)[0] == es[0] && (es + fs)[1..] == es[1..] + fs;
      AppendEvents(Next(l, es[0]), es[1..], fs);
    }
  }

  lemma OneEvent(l: Ledger, a: Event)
    ensures NextAll(l, [a]) == Next(l, a)
    ensures PossibleAll(l, [a]) <==> Possible(l, a)
  {
    assert [a][1..] == [];
  }

  lemma TwoEvents(l: Ledger, a: Event, b: Event)
    ensures NextAll(l, [a, b]) == Next(Next(l, a), b)
    ensures PossibleAll(l, [a, b]) <==> Possible(l, a) && Possible(Next(l, a), b)
  {
    assert [a, b][1..] == [b];
    OneEvent(Next(l, a), b);
  }

  /** The books balance: every admitted call succeeded, failed, was abandoned or is in flight. */
  ghost predicate Balanced(l: Ledger) {
    && l.admitted == l.successes + l.failures + l.abandoned + |l.inFlight|
    && (l.b.state.Open? ==> l.b.openedAt <= l.now)
  }

  lemma BalancedStep(l: Ledger, e: Event)
    requires Balanced(l) && Possible(l, e)
    ensures Balanced(Next(l, e))
  {
    match e
    case Ask(who, ok) => assert |l.inFlight + {who}| == |l.inFlight| + 1;
    case Report(who, _) => assert |l.inFlight - {who}| == |l.inFlight| - 1;
    case Abandon(who) => assert |l.inFlight - {who}| == |l.inFlight| - 1;
    case _ =>
  }

  lemma {:induction false} BalancedAlways(l: Ledger, es: seq<Event>)
    requires Balanced(l) && PossibleAll(l, es)
    ensures Balanced(NextAll(l, es))
    decreases |es|
  {
    if es != [] {
      BalancedStep(l, es[0]);
      BalancedAlways(Next(l, es[0]), es[1..]);
    }
  }

  /** The breaker call an event makes, if any, with its time. */
  function CallOf(l: Ledger, e: Event): seq<TimedCall> {
    match e
    case Ask(_, _) => [TimedCall(Allow, l.now)]
    case Report(_, ok) => [TimedCall(if ok then Success else Failure, l.now)]
    case Inspect => [TimedCall(Peek, l.now)]
    case Abandon(_) => []
    case Elapse(_) => []
  }

  lemma CallOfIsNext(l: Ledger, e: Event)
    ensures Next(l, e).b == AfterAll(l.b, CallOf(l, e))
    ensures forall c <- CallOf(l, e) :: c.at == l.now
  {
    if CallOf(l, e) != [] { assert CallOf(l, e)[..0] == []; }
  }

  function CallsIn(l: Ledger, es: seq<Event>): seq<TimedCall>
    decreases |es|
  {
    if es == [] then [] else CallOf(l, es[0]) + CallsIn(Next(l, es[0]), es[1..])
  }

  lemma {:induction false} AfterAllAppend(b: Breaker, h: seq<TimedCall>, k: seq<TimedCall>)
    ensures AfterAll(b, h + k) == AfterAll(AfterAll(b, h), k)
  {
    if k == [] {
      assert h + k == h;
    } else {
      assert (h + k)[..|h + k| - 1] == h + k[..|k| - 1];
      AfterAllAppend(b, h, k[..|k| - 1]);
    }
  }

  /** Disciplined runs are call histories, so everything said about arbitrary histories
      holds for them. */
  lemma {:induction false} LedgerFollowsCalls(l: Ledger, es: seq<Event>)
    ensures NextAll(l, es).b == AfterAll(l.b, CallsIn(l, es))
    decreases |es|
  {
    if es != [] {
      var l' := Next(l, es[0]);
      LedgerFollowsCalls(l', es[1..]);
      CallOfIsNext(l, es[0]);
      AfterAllAppend(l.b, CallOf(l, es[0]), CallsIn(l', es[1..]));
    }
  }

  lemma {:induction false} ChronologicalPrepend(from: int, first: seq<TimedCall>, later: int, rest: seq<TimedCall>)
    requires |first| <= 1 && (forall c <- first :: c.at == from) && from <= later
    requires Chronological(later, rest)
    ensures Chronological(from, first + rest)
    ensures LastTime(from, first + rest) <= LastTime(later, rest)
  {
    if rest == [] {
      assert first + rest == first;
      if first != [] {
        assert first[..|first| - 1] == [] && first[0] in first;
        assert Chronological(from, first[..|first| - 1]);
      }
    } else {
      var all, last := first + rest, |rest| - 1;
      ChronologicalPrepend(from, first, later, rest[..last]);
      assert all[..|all| - 1] == first + rest[..last] && all[|all| - 1] == rest[last];
    }
  }

  lemma ChronologicalEarlier(from: int, later: int, h: seq<TimedCall>)
    requires from <= later && Chronological(later, h)
    ensures Chronological(from, h) && LastTime(from, h) <= LastTime(later, h)
  {
    ChronologicalPrepend(from, [], later, h);
    assert [] + h == h;
  }

  lemma {:induction false} LedgerCallsChronological(l: Ledger, es: seq<Event>)
    ensures Chronological(l.now, CallsIn(l, es))
    ensures LastTime(l.now, CallsIn(l, es)) <= NextAll(l, es).now
    decreases |es|
  {
    if es != [] {
      var l' := Next(l, es[0]);
      LedgerCallsChronological(l', es[1..]);
      CallOfIsNext(l, es[0]);
      ChronologicalPrepend(l.now, CallOf(l, es[0]), l'.now, CallsIn(l', es[1..]));
    }
  }

  lemma {:induction false} AdmittedAppend(b: Breaker, h: seq<TimedCall>, k: seq<TimedCall>)
    ensures Admitted(b, h + k) == Admitted(b, h) + Admitted(AfterAll(b, h), k)
  {
    if k == [] {
      assert h + k == h;
    } else {
      assert (h + k)[..|h + k| - 1] == h + k[..|k| - 1];
      AdmittedAppend(b, h, k[..|k| - 1]);
      AfterAllAppend(b, h, k[..|k| - 1]);
    }
  }

  lemma {:induction false} LedgerCountsAdmissions(l: Ledger, es: seq<Event>)
    requires PossibleAll(l, es)
    ensures NextAll(l, es).admitted == l.admitted + Admitted(l.b, CallsIn(l, es))
    decreases |es|
  {
    if es != [] {
      var l' := Next(l, es[0]);
      LedgerCountsAdmissions(l', es[1..]);
      CallOfIsNext(l, es[0]);
      AdmittedAppend(l.b, CallOf(l, es[0]), CallsIn(l', es[1..]));
      if CallOf(l, es[0]) != [] { assert CallOf(l, es[0])[..0] == []; }
    }
  }

  lemma {:induction false} SuccessCallsAreReports(l: Ledger, es: seq<Event>)
    requires forall e <- es :: e.Report? ==> !e.ok
    ensures forall c <- CallsIn(l, es) :: !c.call.Success?
    decreases |es|
  {
    if es != [] {
      assert es[0] in es && forall e <- es[1..] :: e in es;
      SuccessCallsAreReports(Next(l, es[0]), es[1..]);
    }
  }

  /** The admission bound, in terms of the books: callers come and go, late reports
      arrive, and still one admission needs one whole cooldown. */
  lemma LedgerAdmissionBound(l: Ledger, es: seq<Event>)
    requires Balanced(l) && l.b.state.Open? && PossibleAll(l, es)
    requires forall e <- es :: e.Report? ==> !e.ok
    ensures var r := NextAll(l, es);
            (r.admitted - l.admitted) * l.b.cooldown <= r.now - l.b.openedAt
  {
    var h := CallsIn(l, es);
    LedgerCallsChronological(l, es);
    SuccessCallsAreReports(l, es);
    LedgerCountsAdmissions(l, es);
    ChronologicalEarlier(l.b.openedAt, l.now, h);
    AdmissionBound(l.b, h, NextAll(l, es).now);
  }

  /** An open breaker stays open, since the same moment, as long as nobody is let through,
      asks for its state or succeeds. */
  lemma {:induction false} OpenUntilProbed(l: Ledger, es: seq<Event>)
    requires l.b.state.Open? && PossibleAll(l, es)
    requires forall e <- es :: !e.Inspect? && (e.Ask? || e.Report? ==> !e.ok)
    ensures var r := NextAll(l, es).b; r.state.Open? && r.openedAt == l.b.openedAt && r.cooldown == l.b.cooldown
    decreases |es|
  {
    if es != [] {
      assert es[0] in es && forall e <- es[1..] :: e in es;
      OpenUntilProbed(Next(l, es[0]), es[1..]);
    }
  }

  // -------------------------------------------------------------------------
  // Half-open: who holds the probe, and when recovery is lost
  // -------------------------------------------------------------------------

  /** No `State` call, and every admitted call reports or is still running. */
  predicate Undisturbed(es: seq<Event>) {
    forall e <- es :: !e.Inspect? && !e.Abandon?
  }

  ghost predicate ProbeOutstanding(l: Ledger) {
    l.b.state.HalfOpen? ==> l.latest.Some? && l.latest.value in l.inFlight
  }

  lemma {:induction false} ProbeOutstandingAlways(l: Ledger, es: seq<Event>)
    requires ProbeOutstanding(l) && PossibleAll(l, es) && Undisturbed(es)
    ensures ProbeOutstanding(NextAll(l, es))
    decreases |es|
  {
    if es != [] {
      assert es[0] in es && forall e <- es[1..] :: e in es;
      ProbeOutstandingAlways(Next(l, es[0]), es[1..]);
    }
  }

  /** Waiting `d` and then asking succeeds. */
  predicate AdmitsAfter(l: Ledger, d: nat) {
    Admits(l.b, l.now + d)
  }

  /** Half-open means that the most recently admitted caller has not reported yet, so a
      breaker nobody is waiting on admits again as soon as its cooldown has passed. */
  lemma IdleBreakerRecovers(maxFailures: int, cooldown: int, es: seq<Event>)
    requires PossibleAll(FreshLedger(maxFailures, cooldown), es) && Undisturbed(es)
    ensures var l := NextAll(FreshLedger(maxFailures, cooldown), es);
            && (l.b.state.HalfOpen? ==> l.latest.Some? && l.latest.value in l.inFlight)
            && (l.inFlight == {} ==> forall d: nat :: d >= cooldown ==> AdmitsAfter(l, d))
  {
    var l0 := FreshLedger(maxFailures, cooldown);
    ProbeOutstandingAlways(l0, es);
    BalancedAlways(l0, es);
    LedgerFollowsCalls(l0, es);
    StateRefinesHistory(maxFailures, cooldown, CallsIn(l0, es));
  }

  ghost predicate Stranded(l: Ledger) {
    l.b.state.HalfOpen? && l.inFlight == {}
  }

  /** A half-open breaker that nobody is going to report to refuses every call for ever. */
  lemma {:induction false} StrandedForever(l: Ledger, es: seq<Event>)
    requires Stranded(l) && PossibleAll(l, es)
    ensures Stranded(NextAll(l, es))
    ensures forall e <- es :: e.Ask? ==> !e.ok
    ensures NextAll(l, es).admitted == l.admitted
    decreases |es|
  {
    if es != [] {
      StrandedForever(Next(l, es[0]), es[1..]);
      assert es == [es[0]] + es[1..];
    }
  }

  /** The only two ways into that state: asking an idle breaker for its state once its
      cooldown is over, and the last admitted caller leaving a half-open one unreported. */
  lemma StrandsExactly(l: Ledger, e: Event)
    requires Possible(l, e) && !Stranded(l)
    ensures Stranded(Next(l, e)) <==>
            || (e.Inspect? && l.inFlight == {} && Cooled(l.b, l.now))
            || (e.Abandon? && l.inFlight == {e.who} && l.b.state.HalfOpen?)
  {
    if e.Ask? && e.ok { assert e.who in l.inFlight + {e.who}; }
    if (e.Report? || e.Abandon?) && l.inFlight - {e.who} == {} { assert l.inFlight == {e.who}; }
  }

  ghost predicate AdmitsSomebody(l: Ledger, es: seq<Event>) {
    PossibleAll(l, es) && exists e <- es :: e.Ask? && e.ok
  }

  /** From any state of breaker and callers, some further run admits a call if and only if
      the breaker is not stranded. */
  lemma RecoverableIffNotStranded(l: Ledger)
    ensures (exists es: seq<Event> :: AdmitsSomebody(l, es)) <==> !Stranded(l)
  {
    if Stranded(l) {
      forall es: seq<Event> | PossibleAll(l, es)
        ensures !AdmitsSomebody(l, es)
      {
        StrandedForever(l, es);
      }
    } else {
      var es := WayBack(l);
      assert AdmitsSomebody(l, es);
    }
  }

  /** A caller in flight may succeed and so close the breaker; with none in flight, waiting
      is enough. */
  lemma WayBack(l: Ledger) returns (es: seq<Event>)
    requires !Stranded(l)
    ensures AdmitsSomebody(l, es)
  {
    if l.inFlight != {} {
      var who :| who in l.inFlight;
      es := [Report(who, true), Ask(who, true)];
      TwoEvents(l, es[0], es[1]);
    } else {
      var d: nat := if l.b.state.Open? && l.b.openedAt + l.b.cooldown > l.now
                    then l.b.openedAt + l.b.cooldown - l.now else 0;
      es := [Elapse(d), Ask(Caller("", 0), true)];
      TwoEvents(l, es[0], es[1]);
    }
    assert es[1] in es;
  }

  function FailingCalls(who: Caller, n: nat): seq<Event> {
    if n == 0 then [] else FailingCalls(who, n - 1) + [Ask(who, true), Report(who, false)]
  }

  lemma {:induction false} FailingCallsTrip(who: Caller, maxFailures: int, cooldown: int, n: nat)
    requires n <= Threshold(maxFailures)
    ensures var l := FreshLedger(maxFailures, cooldown); var r := NextAll(l, FailingCalls(who, n));
            && PossibleAll(l, FailingCalls(who, n))
            && r.inFlight == {} && r.now == 0 && r.b.failures == n
            && r.b.maxFailures == maxFailures && r.b.cooldown == cooldown
            && (if n == Threshold(maxFailures) then r.b.state.Open? && r.b.openedAt == 0 else r.b.state.Closed?)
  {
    var l := FreshLedger(maxFailures, cooldown);
    if n > 0 {
      FailingCallsTrip(who, maxFailures, cooldown, n - 1);
      AppendEvents(l, FailingCalls(who, n - 1), [Ask(who, true), Report(who, false)]);
      TwoEvents(NextAll(l, FailingCalls(who, n - 1)), Ask(who, true), Report(who, false));
    }
  }

  /** One health check after the cooldown, with nobody calling, disables the source for good. */
  lemma HealthCheckStrands(who: Caller, maxFailures: int, cooldown: nat)
    ensures exists es: seq<Event> ::
      && PossibleAll(FreshLedger(maxFailures, cooldown), es)
      && (forall e <- es :: !e.Abandon?)
      && Stranded(NextAll(FreshLedger(maxFailures, cooldown), es))
  {
    Strands(who, maxFailures, cooldown, [Elapse(cooldown), Inspect]);
  }

  /** So does a probe that ends without a report, as an SCRA poll timeout does. */
  lemma AbandonedProbeStrands(who: Caller, maxFailures: int, cooldown: nat)
    ensures exists es: seq<Event> ::
      && PossibleAll(FreshLedger(maxFailures, cooldown), es)
      && (forall e <- es :: !e.Inspect?)
      && Stranded(NextAll(FreshLedger(maxFailures, cooldown), es))
  {
    Strands(who, maxFailures, cooldown, [Elapse(cooldown), Ask(who, true), Abandon(who)]);
  }

  lemma {:induction false} FailingCallsOnlyAskAndReport(who: Caller, n: nat)
    ensures forall e <- FailingCalls(who, n) :: e.Ask? || e.Report?
  {
    if n > 0 { FailingCallsOnlyAskAndReport(who, n - 1); }
  }

  lemma Strands(who: Caller, maxFailures: int, cooldown: nat, tail: seq<Event>)
    requires tail == [Elapse(cooldown), Inspect] || tail == [Elapse(cooldown), Ask(who, true), Abandon(who)]
    ensures var l := FreshLedger(maxFailures, cooldown);
            var es := FailingCalls(who, Threshold(maxFailures)) + tail;
            && PossibleAll(l, es) && Stranded(NextAll(l, es))
            && forall e <- es :: e.Ask? || e.Report? || e in tail
  {
    var l := FreshLedger(maxFailures, cooldown);
    var n := Threshold(maxFailures);
    FailingCallsTrip(who, maxFailures, cooldown, n);
    FailingCallsOnlyAskAndReport(who, n);
    AppendEvents(l, FailingCalls(who, n), tail);
    var r := NextAll(l, FailingCalls(who, n));
    if |tail| == 2 {
      TwoEvents(r, tail[0], tail[1]);
    } else {
      assert tail == [tail[0], tail[1]] + [tail[2]];
      AppendEvents(r, [tail[0], tail[1]], [tail[2]]);
      TwoEvents(r, tail[0], tail[1]);
      OneEvent(Next(Next(r, tail[0]), tail[1]), tail[2]);
    }
  }
}

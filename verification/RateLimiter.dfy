/** The one-slot token bucket that gates court requests: its background refill goroutine,
    its callers, and the token accounting over every interleaving of the two. */
module RateLimiter {

  // -------------------------------------------------------------------------
  // Ticker, refill goroutine and callers as steps
  // -------------------------------------------------------------------------

  datatype Event =
    | Fire      // the ticker fires
    | Take      // the refill goroutine receives the tick
    | Deposit   // and tries to put a token into the bucket
    | Grant     // a caller takes the token
    | Stop

  /** A token's way: `pending` in the ticker, `holding` in the refill goroutine, `bucket`. */
  datatype Limiter = Limiter(
    pending: bool,
    holding: bool,
    bucket: nat,
    stopped: bool,
    ticks: nat,      // times the ticker fired
    lost: nat,       // ticks the refill goroutine never received
    overflow: nat,   // ticks dropped at a full bucket
    grants: nat)

  const FRESH := Limiter(false, false, 1, false, 0, 0, 0, 0)

  predicate Possible(l: Limiter, e: Event) {
    match e
    case Fire => !l.stopped
    case Take => l.pending && !l.holding
    case Deposit => l.holding
    case Grant => l.bucket > 0
    case Stop => !l.stopped
  }

  function Next(l: Limiter, e: Event): Limiter {
    match e
    case Fire =>
      l.(pending := true, ticks := l.ticks + 1, lost := l.lost + Count(l.pending))
    case Take => l.(pending := false, holding := true)
    case Deposit =>
      if l.bucket < 1 then l.(holding := false, bucket := l.bucket + 1)
      else l.(holding := false, overflow := l.overflow + 1)
    case Grant => if l.bucket > 0 then l.(bucket := l.bucket - 1, grants := l.grants + 1) else l
    case Stop => l.(stopped := true, pending := false, lost := l.lost + Count(l.pending))
  }

  function Count(b: bool): nat {
    if b then 1 else 0
  }

  predicate PossibleAll(l: Limiter, es: seq<Event>)
    decreases |es|
  {
    es == [] || (Possible(l, es[0]) && PossibleAll(Next(l, es[0]), es[1..]))
  }

  function NextAll(l: Limiter, es: seq<Event>): Limiter
    decreases |es|
  {
    if es == [] then l else NextAll(Next(l, es[0]), es[1..])
  }

  function Occurrences(es: seq<Event>, e: Event): nat {
    multiset(es)[e]
  }

  /** No token is created or destroyed unseen. */
  ghost predicate Conserved(l: Limiter) {
    && l.bucket <= 1
    && l.grants + l.bucket + l.overflow + l.lost + Count(l.pending) + Count(l.holding) == 1 + l.ticks
    && (l.stopped ==> !l.pending)
  }

  lemma ConservedStep(l: Limiter, e: Event)
    requires Conserved(l) && Possible(l, e)
    ensures Conserved(Next(l, e))
  {}

  /** Every reachable state satisfies the conservation law, and the whole-run bound. */
  lemma {:induction false} TokensConserved(l: Limiter, es: seq<Event>)
    requires Conserved(l) && PossibleAll(l, es)
    ensures Conserved(NextAll(l, es))
    ensures NextAll(l, es).grants <= 1 + NextAll(l, es).ticks
    decreases |es|
  {
    if es != [] {
      ConservedStep(l, es[0]);
      TokensConserved(Next(l, es[0]), es[1..]);
    }
  }

  lemma WindowStep(l: Limiter, e: Event)
    requires Possible(l, e)
    ensures var r := Next(l, e);
            && r.grants == l.grants + Count(e == Grant)
            && r.ticks == l.ticks + Count(e == Fire)
            && r.bucket + r.overflow + Count(e == Grant) == l.bucket + l.overflow + Count(e == Deposit)
            && l.overflow <= r.overflow && l.lost <= r.lost
  {}

  /** How far a window of events moves each counter. */
  lemma {:induction false} Window(l: Limiter, es: seq<Event>)
    requires Conserved(l) && PossibleAll(l, es)
    ensures var r := NextAll(l, es);
            && r.grants == l.grants + Occurrences(es, Grant)
            && r.ticks == l.ticks + Occurrences(es, Fire)
            && r.bucket + r.overflow + Occurrences(es, Grant)
               == l.bucket + l.overflow + Occurrences(es, Deposit)
            && l.overflow <= r.overflow && l.lost <= r.lost
    decreases |es|
  {
    if es != [] {
      WindowStep(l, es[0]);
      Window(Next(l, es[0]), es[1..]);
      assert es == [es[0]] + es[1..];
    }
  }

  /** In any window, grants exceed the deposits attempted by at most one; counted by
      ticker firings the slack is what was already on its way. */
  lemma WindowBound(l: Limiter, es: seq<Event>)
    requires Conserved(l) && PossibleAll(l, es)
    ensures Occurrences(es, Grant) <= Occurrences(es, Deposit) + 1
    ensures Occurrences(es, Grant)
            <= Occurrences(es, Fire) + l.bucket + Count(l.holding) + Count(l.pending)
  {
    Window(l, es);
    TokensConserved(l, es);
  }

  lemma {:induction false} StoppedStays(l: Limiter, es: seq<Event>)
    requires Conserved(l) && l.stopped && PossibleAll(l, es)
    ensures Occurrences(es, Fire) == 0
    decreases |es|
  {
    if es != [] {
      assert es == [es[0]] + es[1..];
      StoppedStays(Next(l, es[0]), es[1..]);
    }
  }

  /** After `Stop` the callers get what is in the bucket and in the refill goroutine's
      hand, and never more. */
  lemma AfterStop(l: Limiter, es: seq<Event>)
    requires Conserved(l) && l.stopped && PossibleAll(l, es)
    ensures Occurrences(es, Grant) <= l.bucket + Count(l.holding) <= 2
  {
    WindowBound(l, es);
    StoppedStays(l, es);
  }

  /** The remainder can always be drawn, so the bound after `Stop` is exact. */
  lemma AfterStopExact(l: Limiter)
    requires Conserved(l) && l.stopped
    ensures exists es: seq<Event> ::
      PossibleAll(l, es) && Occurrences(es, Grant) == l.bucket + Count(l.holding)
  {
    var first: seq<Event> := if l.bucket == 1 then [Grant] else [];
    var rest: seq<Event> := if l.holding then [Deposit, Grant] else [];
    var es := first + rest;
    assert PossibleAll(l, es) by {
      if l.bucket == 1 {
        assert es[1..] == rest;
      } else {
        assert es == rest;
      }
      if l.holding {
        assert rest[1..] == [Grant] && [Event.Grant][1..] == [];
        assert PossibleAll(Next(Next(l, Grant), Deposit), [Grant]);
        assert PossibleAll(Next(l, Deposit), [Grant]);
      }
    }
    assert Occurrences(es, Grant) == Count(l.bucket == 1) + Count(l.holding);
  }

  // -------------------------------------------------------------------------
  // The mutable object
  // -------------------------------------------------------------------------

  datatype WaitResult = Granted | Cancelled

  /** Channels are modelled by their occupancy. The ghost `book` is the token account that
      the theorems above speak of. */
  class RateLimiter {
    var pending: bool   // a fired tick nobody received yet
    var holding: bool   // refill received a tick and has not deposited yet
    var tokens: nat     // the channel of capacity one
    var done: bool
    ghost var book: Limiter

    ghost predicate Valid()
      reads this
    {
      && Conserved(book)
      && book.pending == pending && book.holding == holding
      && book.bucket == tokens && book.stopped == done
    }

    constructor ()
      ensures Valid() && book == FRESH
    {
      pending, holding, tokens, done := false, false, 1, false;
      book := FRESH;
    }

    /** The ticker fires; it keeps at most one undelivered tick. */
    method Tick()
      requires Valid() && !done
      modifies this
      ensures Valid() && book == Next(old(book), Fire)
      ensures pending && holding == old(holding) && tokens == old(tokens) && !done
    {
      pending := true;
      book := Next(book, Fire);
    }

    /** The refill goroutine receives the tick. */
    method Receive()
      requires Valid() && pending && !holding
      modifies this
      ensures Valid() && book == Next(old(book), Take)
      ensures !pending && holding && tokens == old(tokens) && done == old(done)
    {
      pending, holding := false, true;
      book := Next(book, Take);
    }

    /** And deposits a token, or drops the tick when the bucket is full. */
    method Refill() returns (dropped: bool)
      requires Valid() && holding
      modifies this
      ensures Valid() && book == Next(old(book), Deposit)
      ensures tokens == 1 && (dropped <==> old(tokens) == 1)
      ensures pending == old(pending) && !holding && done == old(done)
    {
      holding := false;
      book := Next(book, Deposit);
      if tokens < 1 {
        tokens := tokens + 1;
        return false;
      }
      return true;
    }

    /** Returns once a token is available or the context is done; with both ready, Go's
        select takes either. Until then the call blocks, hence the precondition. */
    method Wait(contextDone: bool) returns (r: WaitResult)
      requires Valid() && (contextDone || tokens > 0)
      modifies this
      ensures Valid()
      ensures r.Granted? ==> old(tokens) == 1 && book == Next(old(book), Grant)
      ensures r.Cancelled? ==> contextDone && book == old(book)
      ensures tokens == if r.Granted? then 0 else old(tokens)
      ensures pending == old(pending) && holding == old(holding) && done == old(done)
    {
      var preferContext: bool := *;
      if contextDone && (preferContext || tokens == 0) {
        return Cancelled;
      }
      tokens := tokens - 1;
      book := Next(book, Grant);
      return Granted;
    }

    method Stop()
      requires Valid() && !done
      modifies this
      ensures Valid() && book == Next(old(book), Event.Stop)
      ensures done && !pending && holding == old(holding) && tokens == old(tokens)
    {
      done := true;
      pending := false;
      book := Next(book, Event.Stop);
    }
  }
}

/** The SCRA service: an accepted search is `pending` until a goroutine of its own flips it,
    and clients learn of that by polling. What the service guarantees, when its generated ids
    are distinct and when they are not, and what a polling client then sees. */
module ScraService {
  import opened Types
  import T = SourceTask

  datatype SearchStatus = Underway | Completed | Errored

  datatype Search = Search(status: SearchStatus, result: Option<string>)

  /** The goroutine started for one submission: it sleeps until `due`. */
  datatype Timer = Timer(id: string, willFail: bool, due: int)

  datatype Server = Server(now: int, searches: map<string, Search>, timers: map<nat, Timer>, next: nat)

  const STARTED := Server(0, map[], map[], 0)

  datatype Event =
    | Submit(id: string, report: string, delay: nat, willFail: bool)
    | Fire(k: nat)
    | Elapse(d: nat)

  predicate Possible(s: Server, e: Event) {
    e.Fire? ==> e.k in s.timers && s.timers[e.k].due <= s.now
  }

  function Flip(s: Search, willFail: bool): Search {
    s.(status := if willFail then Errored else Completed)
  }

  function Accept(report: string, willFail: bool): Search {
    Search(Underway, if willFail then None else Some(report))
  }

  function Next(s: Server, e: Event): Server
    requires Possible(s, e)
  {
    match e
    case Submit(id, report, delay, willFail) =>
      s.(searches := s.searches[id := Accept(report, willFail)],
         timers := s.timers[s.next := Timer(id, willFail, s.now + delay)],
         next := s.next + 1)
    case Fire(k) =>
      var t := s.timers[k];
      s.(timers := s.timers - {k},
         searches := if t.id in s.searches then s.searches[t.id := Flip(s.searches[t.id], t.willFail)]
                     else s.searches)
    case Elapse(d) => s.(now := s.now + d)
  }

  /** What a poll is answered. A complete search without a result crashes the handler, which
      the client sees as a broken connection. */
  function Answer(s: Server, id: string): T.PollOutcome {
    if id !in s.searches then T.PollPermanent
    else match s.searches[id].status
         case Underway => T.StillPending
         case Errored => T.SearchError
         case Completed => match s.searches[id].result
                           case Some(data) => T.SearchComplete(data)
                           case None => T.PollTransient
  }

  /** The mutable tables behind the two endpoints. */
  class ScraServer {
    var searches: map<string, Search>
    var timers: map<nat, Timer>
    var next: nat

    ghost function At(now: int): Server
      reads this
    {
      Server(now, searches, timers, next)
    }

    constructor ()
      ensures At(0) == STARTED
    {
      searches, timers, next := map[], map[], 0;
    }

    /** `POST /api/scra/search`; `id` is generated from the clock, `report` comes from the
        data tables. */
    method PostSearch(lastName: string, now: int, id: string, report: string, delay: nat, willFail: bool)
      returns (accepted: bool)
      modifies this
      ensures accepted <==> lastName != ""
      ensures At(now) == if accepted then Next(old(At(now)), Submit(id, report, delay, willFail)) else old(At(now))
      ensures accepted ==>
                && searches == old(searches)[id := Search(Underway, if willFail then None else Some(report))]
                && timers == old(timers)[old(next) := Timer(id, willFail, now + delay)]
    {
      if lastName == "" {
        return false;
      }
      var search := Search(Underway, None);
      if !willFail {
        search := search.(result := Some(report));
      }
      searches := searches[id := search];
      timers := timers[next := Timer(id, willFail, now + delay)];
      next := next + 1;
      return true;
    }

    /** A search goroutine after its sleep. */
    method Finish(k: nat, now: int)
      requires Possible(At(now), Fire(k))
      modifies this
      ensures At(now) == Next(old(At(now)), Fire(k))
      ensures var t := old(timers)[k];
              && timers == old(timers) - {k}
              && (t.id !in old(searches) ==> searches == old(searches))
              && (t.id in old(searches) ==>
                    searches == old(searches)[t.id := Search(if t.willFail then Errored else Completed,
                                                             old(searches)[t.id].result)])
    {
      var t := timers[k];
      timers := timers - {k};
      if t.id in searches {
        if t.willFail {
          searches := searches[t.id := searches[t.id].(status := Errored)];
        } else {
          searches := searches[t.id := searches[t.id].(status := Completed)];
        }
      }
    }

    /** `GET /api/scra/results/{searchId}`, as the client's `PollResult` reports it. */
    method GetResult(id: string) returns (answer: T.PollOutcome)
      ensures forall now :: answer == Answer(At(now), id)
      ensures id !in searches ==> answer.PollPermanent?
      ensures id in searches ==>
                && (answer.StillPending? <==> searches[id].status.Underway?)
                && (answer.SearchError? <==> searches[id].status.Errored?)
                && (searches[id].status.Completed? ==>
                      answer == match searches[id].result
                                case Some(data) => T.SearchComplete(data)
                                case None => T.PollTransient)
    {
      if id !in searches {
        return T.PollPermanent;
      }
      match searches[id].status {
        case Underway => return T.StillPending;
        case Errored => return T.SearchError;
        case Completed =>
          if searches[id].result.None? {
            return T.PollTransient;
          }
          return T.SearchComplete(searches[id].result.value);
      }
    }
  }

  // -------------------------------------------------------------------------
  // When ids collide
  // -------------------------------------------------------------------------

  /** Every goroutine agrees with the search it will flip, and every flipped search with its
      result. */
  ghost predicate Sound(s: Server) {
    && (forall k <- s.timers :: k < s.next && s.timers[k].id in s.searches
                                && (s.timers[k].willFail <==> s.searches[s.timers[k].id].result.None?))
    && (forall id <- s.searches ::
          && (s.searches[id].status.Completed? ==> s.searches[id].result.Some?)
          && (s.searches[id].status.Errored? ==> s.searches[id].result.None?))
  }

  /** Goroutines and time keep that; a submission keeps it exactly when no goroutine of the
      other fate is still asleep under the same id. */
  lemma SoundStep(s: Server, e: Event)
    requires Sound(s) && Possible(s, e)
    ensures Sound(Next(s, e)) <==>
            (e.Submit? ==> forall k <- s.timers :: s.timers[k].id == e.id ==> s.timers[k].willFail == e.willFail)
  {
    var s' := Next(s, e);
    if e.Submit? {
      if k :| k in s.timers && s.timers[k].id == e.id && s.timers[k].willFail != e.willFail {
        assert k in s'.timers && s'.timers[k] == s.timers[k];
      }
    }
  }

  /** Two submissions within one clock reading share an id, and the goroutine of the first
      completes the second, which has no result to show. */
  lemma CollidingIds(id: string, report: string, delay: nat, longer: nat)
    ensures var s1 := Next(STARTED, Submit(id, report, delay, false));
            var s2 := Next(s1, Submit(id, report, longer, true));
            var s3 := Next(s2, Elapse(delay));
            && Possible(s3, Fire(0))
            && Next(s3, Fire(0)).searches[id] == Search(Completed, None)
            && Answer(Next(s3, Fire(0)), id).PollTransient?
  {
    var s1 := Next(STARTED, Submit(id, report, delay, false));
    var s2 := Next(s1, Submit(id, report, longer, true));
    assert s2.timers[0] == Timer(id, false, delay);
  }

  // -------------------------------------------------------------------------
  // With distinct ids
  // -------------------------------------------------------------------------

  /** The hypothesis: a new submission gets an id that no search has. */
  predicate Distinct(s: Server, e: Event) {
    Possible(s, e) && (e.Submit? ==> e.id !in s.searches)
  }

  ghost predicate LegalDistinct(s: Server, es: seq<Event>)
    decreases |es|
  {
    es == [] || (Distinct(s, es[0]) && LegalDistinct(Next(s, es[0]), es[1..]))
  }

  ghost function NextAll(s: Server, es: seq<Event>): Server
    requires LegalDistinct(s, es)
    decreases |es|
  {
    if es == [] then s else NextAll(Next(s, es[0]), es[1..])
  }

  predicate Awaits(s: Server, id: string, k: nat) {
    k in s.timers && s.timers[k].id == id
  }

  predicate Settled(s: Server, id: string) {
    id in s.searches && !s.searches[id].status.Underway?
  }

  /** A search is pending exactly as long as one goroutine sleeps for it. */
  ghost predicate Tidy(s: Server) {
    && Sound(s)
    && (forall k <- s.timers :: s.searches[s.timers[k].id].status.Underway?)
    && (forall j, k | j in s.timers && k in s.timers :: s.timers[j].id == s.timers[k].id ==> j == k)
    && (forall id <- s.searches :: s.searches[id].status.Underway? ==> exists k :: Awaits(s, id, k))
  }

  lemma TidyStep(s: Server, e: Event)
    requires Tidy(s) && Distinct(s, e)
    ensures Tidy(Next(s, e))
  {
    var s' := Next(s, e);
    SoundStep(s, e);
    forall id <- s'.searches | s'.searches[id].status.Underway?
      ensures exists k :: Awaits(s', id, k)
    {
      if e.Submit? && id == e.id {
        assert Awaits(s', id, s.next);
      } else {
        var k :| Awaits(s, id, k);
        assert Awaits(s', id, k);
      }
    }
  }

  /** How often the status of one search changes along a run. */
  ghost function Changes(s: Server, es: seq<Event>, id: string): nat
    requires LegalDistinct(s, es)
    decreases |es|
  {
    if es == [] then 0
    else
      var s' := Next(s, es[0]);
      (if id in s.searches && id in s'.searches && s.searches[id].status != s'.searches[id].status then 1 else 0)
      + Changes(s', es[1..], id)
  }

  /** Every search leaves `pending` exactly once and then never changes again; it ends
      complete, with its result, or in error, without one. */
  lemma {:induction false} LeavesPendingOnce(s: Server, es: seq<Event>, id: string)
    requires Tidy(s) && LegalDistinct(s, es)
    ensures var r := NextAll(s, es);
            && Tidy(r)
            && Changes(s, es, id) + T.Indicator(Settled(s, id)) == T.Indicator(Settled(r, id))
            && (Settled(s, id) ==> Settled(r, id) && r.searches[id] == s.searches[id])
            && (id in s.searches ==> id in r.searches && r.searches[id].result == s.searches[id].result)
            && (Settled(r, id) ==> (r.searches[id].status.Completed? <==> r.searches[id].result.Some?))
    decreases |es|
  {
    if es != [] {
      TidyStep(s, es[0]);
      LeavesPendingOnce(Next(s, es[0]), es[1..], id);
    }
  }

  // -------------------------------------------------------------------------
  // A polling client
  // -------------------------------------------------------------------------

  /** The service together with one task that has submitted its search and polls. */
  datatype Session = Session(server: Server, task: T.Task)

  datatype Step =
    | Second             // a second passes; the client's ticker fires
    | Serve(e: Event)    // other clients' submissions, search goroutines
    | Poll
    | Expire
    | Tell
    | Write

  /** Nothing on either side is late by a whole second: goroutines that are due have run and
      the client has polled at its last tick. There are no transport errors. */
  ghost predicate Timely(x: Session, a: Step) {
    match a
    case Second =>
      && x.task.pc.Polling? && x.task.pc.left > 0 && !x.task.pc.tick
      && forall k <- x.server.timers :: x.server.timers[k].due > x.server.now
    case Serve(e) => !e.Elapse? && Distinct(x.server, e)
    case Poll => x.task.pc.Polling? && x.task.pc.tick
    case Expire => T.Enabled(x.task, T.Expire)
    case Tell => T.Enabled(x.task, T.Tell)
    case Write => T.Enabled(x.task, T.Write)
  }

  ghost function After(x: Session, a: Step): Session
    requires Timely(x, a)
  {
    match a
    case Second => Session(Next(x.server, Elapse(1)), T.Exec(x.task, T.Tick))
    case Serve(e) => x.(server := Next(x.server, e))
    case Poll => x.(task := T.Exec(x.task, T.Poll(Answer(x.server, x.task.pc.searchId))))
    case Expire => x.(task := T.Exec(x.task, T.Expire))
    case Tell => x.(task := T.Exec(x.task, T.Tell))
    case Write => x.(task := T.Exec(x.task, T.Write))
  }

  ghost predicate AllTimely(x: Session, acts: seq<Step>)
    decreases |acts|
  {
    acts == [] || (Timely(x, acts[0]) && AllTimely(After(x, acts[0]), acts[1..]))
  }

  ghost function AfterAll(x: Session, acts: seq<Step>): Session
    requires AllTimely(x, acts)
    decreases |acts|
  {
    if acts == [] then x else AfterAll(After(x, acts[0]), acts[1..])
  }

  /** The client's submission: what was asked of the service and what the task looked like
      when it began to poll. */
  datatype Submission = Submission(sub: Event, at: int, task: T.Task)

  ghost predicate Started(b: Submission) {
    b.sub.Submit? && b.task.pc == T.Polling(T.POLL_SECONDS, false, b.sub.id)
  }

  /** The row a search is bound to end in, after so many attempts. */
  function Verdict(e: Event, attempts: nat): Row
    requires e.Submit?
  {
    if e.willFail then T.FailedRow(attempts, SearchFailed, Some(e.id))
    else T.SuccessRow(attempts, Some(e.report), Some(e.id))
  }

  /** Seconds since the client began to poll. */
  function Elapsed(t: T.Task): int
    requires t.pc.Polling?
  {
    T.POLL_SECONDS - t.pc.left
  }

  ghost predicate SearchKept(x: Session, b: Submission)
    requires Started(b)
  {
    && Tidy(x.server) && b.sub.id in x.server.searches
    && x.server.searches[b.sub.id].result == Accept(b.sub.report, b.sub.willFail).result
    && (forall k :: Awaits(x.server, b.sub.id, k) ==> x.server.timers[k].due == b.at + b.sub.delay)
    && (!Settled(x.server, b.sub.id) ==> x.server.now <= b.at + b.sub.delay)
  }

  ghost predicate OnTrack(x: Session, b: Submission)
    requires Started(b)
  {
    && SearchKept(x, b)
    && x.task.base == b.task.base && b.task.made <= x.task.made <= b.task.made + b.sub.delay + 1
    && match x.task.pc
       case Polling(left, tick, id) =>
         && id == b.sub.id && left <= T.POLL_SECONDS
         && x.server.now == b.at + Elapsed(x.task)
         && x.task.made + T.Indicator(tick) == b.task.made + Elapsed(x.task)
         && Elapsed(x.task) <= b.sub.delay + T.Indicator(tick)
       case Reporting(ok, row) => ok == !b.sub.willFail && row == Verdict(b.sub, x.task.base + x.task.made)
       case Writing(row) => row == Verdict(b.sub, x.task.base + x.task.made)
       case Finished => true
       case _ => false
  }

  lemma SearchKeptStep(x: Session, b: Submission, a: Step)
    requires Started(b) && SearchKept(x, b) && Timely(x, a)
    ensures SearchKept(After(x, a), b)
  {
    var x' := After(x, a);
    if a.Serve? {
      TidyStep(x.server, a.e);
      forall k | Awaits(x'.server, b.sub.id, k)
        ensures x'.server.timers[k].due == b.at + b.sub.delay
      {
        assert Awaits(x.server, b.sub.id, k);
      }
    } else if a.Second? {
      TidyStep(x.server, Elapse(1));
      forall k | Awaits(x'.server, b.sub.id, k)
        ensures x'.server.timers[k].due == b.at + b.sub.delay
      {
        assert Awaits(x.server, b.sub.id, k);
      }
      if !Settled(x.server, b.sub.id) {
        var k :| Awaits(x.server, b.sub.id, k);
        assert x.server.timers[k].due > x.server.now;
      }
    }
  }

  lemma OnTrackStep(x: Session, b: Submission, a: Step)
    requires Started(b) && b.sub.delay + 1 < T.POLL_SECONDS && OnTrack(x, b) && Timely(x, a)
    ensures OnTrack(After(x, a), b)
  {
    SearchKeptStep(x, b, a);
  }

  lemma {:induction false} OnTrackAlways(x: Session, b: Submission, acts: seq<Step>)
    requires Started(b) && b.sub.delay + 1 < T.POLL_SECONDS && OnTrack(x, b) && AllTimely(x, acts)
    ensures OnTrack(AfterAll(x, acts), b)
    decreases |acts|
  {
    if acts != [] {
      OnTrackStep(x, b, acts[0]);
      OnTrackAlways(After(x, acts[0]), b, acts[1..]);
    }
  }

  /** End to end: whatever other searches the service handles meanwhile, a search that takes
      `d` seconds, with `d + 1` below the deadline, is resolved within `d + 1` polls. The
      deadline never strikes, the row that is written is a success carrying the report
      exactly when the search succeeds, and until it is written somebody can move. */
  lemma PolledToTheEnd(s: Server, e: Event, t: T.Task, acts: seq<Step>)
    requires Tidy(s) && e.Submit? && Distinct(s, e)
    requires t.pc == T.Polling(T.POLL_SECONDS, false, e.id) && e.delay + 1 < T.POLL_SECONDS
    requires AllTimely(Session(Next(s, e), t), acts)
    ensures var x := AfterAll(Session(Next(s, e), t), acts);
            && x.task.made <= t.made + e.delay + 1
            && !T.Enabled(x.task, T.Expire)
            && (x.task.pc.Writing? ==>
                  x.task.pc.row == if e.willFail
                                   then Row(SFailed, t.base + x.task.made, None, Some(SearchFailed), None, Some(e.id))
                                   else Row(SSuccess, t.base + x.task.made, Some(e.report), None, None, Some(e.id)))
            && (!x.task.pc.Finished? ==> exists a :: Timely(x, a) && !(a.Serve? && a.e.Submit?))
  {
    var b := Submission(e, s.now, t);
    var x0 := Session(Next(s, e), t);
    TidyStep(s, e);
    forall k | Awaits(x0.server, e.id, k)
      ensures x0.server.timers[k].due == s.now + e.delay
    {
      assert k == s.next || k in s.timers;
    }
    OnTrackAlways(x0, b, acts);
    if !AfterAll(x0, acts).task.pc.Finished? {
      SomebodyMoves(AfterAll(x0, acts), b);
    }
  }

  lemma SomebodyMoves(x: Session, b: Submission)
    requires Started(b) && b.sub.delay + 1 < T.POLL_SECONDS && OnTrack(x, b) && !x.task.pc.Finished?
    ensures exists a :: Timely(x, a) && !(a.Serve? && a.e.Submit?)
  {
    match x.task.pc
    case Polling(left, tick, _) =>
      if tick {
        assert Timely(x, Poll);
      } else if k :| k in x.server.timers && x.server.timers[k].due <= x.server.now {
        assert Timely(x, Serve(Fire(k)));
      } else {
        assert Timely(x, Second);
      }
    case Reporting(_, _) => assert Timely(x, Tell);
    case Writing(_) => assert Timely(x, Write);
  }

  // -------------------------------------------------------------------------
  // The delay at which the deadline can strike
  // -------------------------------------------------------------------------

  lemma {:induction false} TimelyAppend(x: Session, acts: seq<Step>, more: seq<Step>)
    requires AllTimely(x, acts) && AllTimely(AfterAll(x, acts), more)
    ensures AllTimely(x, acts + more) && AfterAll(x, acts + more) == AfterAll(AfterAll(x, acts), more)
    decreases |acts|
  {
    if acts == [] {
      assert acts + more == more;
    } else {
      assert (acts + more)[0] == acts[0] && (acts + more)[1..] == acts[1..] + more;
      TimelyAppend(After(x, acts[0]), acts[1..], more);
    }
  }

  lemma AndThen(x0: Session, acts: seq<Step>, x: Session, a: Step) returns (acts': seq<Step>)
    requires AllTimely(x0, acts) && AfterAll(x0, acts) == x && Timely(x, a)
    ensures acts' == acts + [a] && AllTimely(x0, acts') && AfterAll(x0, acts') == After(x, a)
  {
    acts' := acts + [a];
    var x' := After(x, a);
    assert [a][0] == a && [a][1..] == [];
    assert AllTimely(x', []) && AfterAll(x', []) == x';
    TimelyAppend(x0, acts, [a]);
  }

  /** A fresh service whose only search takes `delay` seconds, `n` fruitless polls later. */
  function Waiting(e: Event, t: T.Task, n: nat): Session
    requires e.Submit? && n <= T.POLL_SECONDS
  {
    Session(Server(n, map[e.id := Accept(e.report, e.willFail)], map[0 := Timer(e.id, e.willFail, e.delay)], 1),
            t.(made := t.made + n, pc := T.Polling(T.POLL_SECONDS - n, false, e.id)))
  }

  /** A second without a result. */
  lemma WaitRound(e: Event, t: T.Task, n: nat)
    requires e.Submit? && n + 1 < T.POLL_SECONDS <= e.delay + 1
    ensures var before := Waiting(e, t, n);
            && Timely(before, Second)
            && var ticked := After(before, Second);
               Timely(ticked, Poll) && After(ticked, Poll) == Waiting(e, t, n + 1)
  {
    assert Answer(After(Waiting(e, t, n), Second).server, e.id).StillPending?;
  }

  lemma {:induction false} WaitRounds(e: Event, t: T.Task, n: nat) returns (acts: seq<Step>)
    requires e.Submit? && n < T.POLL_SECONDS <= e.delay + 1
    ensures AllTimely(Waiting(e, t, 0), acts) && AfterAll(Waiting(e, t, 0), acts) == Waiting(e, t, n)
  {
    if n == 0 {
      acts := [];
    } else {
      acts := WaitRounds(e, t, n - 1);
      var before := Waiting(e, t, n - 1);
      WaitRound(e, t, n - 1);
      acts := AndThen(Waiting(e, t, 0), acts, before, Second);
      acts := AndThen(Waiting(e, t, 0), acts, After(before, Second), Poll);
    }
  }

  /** A timely run after which the deadline may be taken. */
  ghost predicate TimesOut(x: Session, acts: seq<Step>) {
    AllTimely(x, acts) && T.Enabled(AfterAll(x, acts).task, T.Expire)
  }

  /** Every poll is on time; at 29 seconds the search is even over, but tick and deadline
      are then ready together and select may take either. */
  lemma IntoTheDeadline(e: Event, t: T.Task) returns (acts: seq<Step>)
    requires e.Submit? && T.POLL_SECONDS <= e.delay + 1
    ensures TimesOut(Waiting(e, t, 0), acts)
  {
    acts := WaitRounds(e, t, T.POLL_SECONDS - 1);
    var x := Waiting(e, t, T.POLL_SECONDS - 1);
    if e.delay + 1 == T.POLL_SECONDS {
      acts := AndThen(Waiting(e, t, 0), acts, x, Serve(Fire(0)));
      x := After(x, Serve(Fire(0)));
    }
    acts := AndThen(Waiting(e, t, 0), acts, x, Second);
  }

  lemma NotIntoTheDeadline(e: Event, t: T.Task, acts: seq<Step>)
    requires e.Submit? && e.delay + 1 < T.POLL_SECONDS
    ensures !TimesOut(Waiting(e, t, 0), acts)
  {
    var t0 := t.(pc := T.Polling(T.POLL_SECONDS, false, e.id));
    assert Waiting(e, t, 0) == Session(Next(STARTED, e), t0);
    if AllTimely(Waiting(e, t, 0), acts) {
      PolledToTheEnd(STARTED, e, t0, acts);
    }
  }

  /** So the bound on the delay is exact. */
  lemma DeadlineStrikesIff(e: Event, t: T.Task)
    requires e.Submit?
    ensures (exists acts: seq<Step> :: TimesOut(Waiting(e, t, 0), acts)) <==> 30 <= e.delay + 1
  {
    if T.POLL_SECONDS <= e.delay + 1 {
      var acts := IntoTheDeadline(e, t);
    } else if acts: seq<Step> :| TimesOut(Waiting(e, t, 0), acts) {
      NotIntoTheDeadline(e, t, acts);
    }
  }
}

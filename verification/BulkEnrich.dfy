/** The worker pool behind `POST /api/enrich/bulk`: a producer fills and closes a channel of
    indices, up to three workers drain it and write their results in place. */
module BulkEnrich {
  import opened Types

  /** What `TriggerLookup` returns for a case: an error, or a status code. */
  datatype Answer = Refused(message: string) | Code(code: int)

  datatype CaseResult = CaseResult(caseId: CaseId, status: string, error: string)

  const BLANK := CaseResult("", "", "")

  function Label(caseId: CaseId, a: Answer): CaseResult {
    match a
    case Refused(message) => CaseResult(caseId, "error", message)
    case Code(code) =>
      CaseResult(caseId, if code == 200 then "complete" else if code == 202 then "triggered" else "", "")
  }

  const MAX_WORKERS := 3

  datatype Worker = Idle | Busy(idx: nat) | Gone

  /** `done` is history: the indices whose calls have returned, in that order. */
  datatype Pool = Pool(
    ids: seq<CaseId>,
    pushed: nat,
    closed: bool,
    queue: seq<nat>,
    workers: seq<Worker>,
    results: seq<CaseResult>,
    done: seq<nat>)

  function PoolSize(ids: seq<CaseId>): nat {
    if |ids| < MAX_WORKERS then |ids| else MAX_WORKERS
  }

  function Started(ids: seq<CaseId>): Pool {
    Pool(ids, 0, false, [], seq(PoolSize(ids), _ => Idle), seq(|ids|, _ => BLANK), [])
  }

  datatype Step =
    | Push
    | Close
    | Take(w: nat)      // a worker receives an index and calls TriggerLookup
    | Deliver(w: nat)   // the call has returned; its result is written
    | Leave(w: nat)     // closed and drained: the worker's loop ends

  predicate Enabled(p: Pool, a: Step) {
    match a
    case Push => p.pushed < |p.ids|
    case Close => p.pushed == |p.ids| && !p.closed
    case Take(w) => w < |p.workers| && p.workers[w].Idle? && p.queue != []
    case Deliver(w) => w < |p.workers| && p.workers[w].Busy? && p.workers[w].idx < |p.results| == |p.ids|
    case Leave(w) => w < |p.workers| && p.workers[w].Idle? && p.queue == [] && p.closed
  }

  /** `answers` says what each call returns, whenever it is made. */
  function Exec(p: Pool, a: Step, answers: nat -> Answer): Pool
    requires Enabled(p, a)
  {
    match a
    case Push => p.(pushed := p.pushed + 1, queue := p.queue + [p.pushed])
    case Close => p.(closed := true)
    case Take(w) => p.(queue := p.queue[1..], workers := p.workers[w := Busy(p.queue[0])])
    case Deliver(w) =>
      var idx := p.workers[w].idx;
      p.(workers := p.workers[w := Idle], done := p.done + [idx],
         results := p.results[idx := Label(p.ids[idx], answers(idx))])
    case Leave(w) => p.(workers := p.workers[w := Gone])
  }

  ghost predicate Legal(p: Pool, acts: seq<Step>, answers: nat -> Answer)
    decreases |acts|
  {
    acts == [] || (Enabled(p, acts[0]) && Legal(Exec(p, acts[0], answers), acts[1..], answers))
  }

  ghost function ExecAll(p: Pool, acts: seq<Step>, answers: nat -> Answer): Pool
    requires Legal(p, acts, answers)
    decreases |acts|
  {
    if acts == [] then p else ExecAll(Exec(p, acts[0], answers), acts[1..], answers)
  }

  // -------------------------------------------------------------------------
  // Every index is in one place
  // -------------------------------------------------------------------------

  function Occurrences(s: seq<nat>, i: nat): nat {
    if s == [] then 0 else Occurrences(s[..|s| - 1], i) + if s[|s| - 1] == i then 1 else 0
  }

  lemma OneMore(s: seq<nat>, x: nat, i: nat)
    ensures Occurrences(s + [x], i) == Occurrences(s, i) + if x == i then 1 else 0
  {
    assert (s + [x])[..|s|] == s;
  }

  lemma {:induction false} WithoutFirst(s: seq<nat>, i: nat)
    requires s != []
    ensures Occurrences(s, i) == Occurrences(s[1..], i) + if s[0] == i then 1 else 0
  {
    if |s| > 1 {
      var last := |s| - 1;
      WithoutFirst(s[..last], i);
      assert s[..last][1..] == s[1..][..last - 1];
    }
  }

  function Holds(w: Worker, i: nat): nat {
    if w == Busy(i) then 1 else 0
  }

  /** How many workers are busy with an index. */
  function Holders(ws: seq<Worker>, i: nat): nat {
    if ws == [] then 0 else Holds(ws[0], i) + Holders(ws[1..], i)
  }

  lemma {:induction false} HoldersUpdate(ws: seq<Worker>, w: nat, v: Worker, i: nat)
    requires w < |ws|
    ensures Holders(ws[w := v], i) + Holds(ws[w], i) == Holders(ws, i) + Holds(v, i)
    ensures Holders(ws, i) >= Holds(ws[w], i)
    decreases w
  {
    if w == 0 {
      assert ws[0 := v][1..] == ws[1..];
    } else {
      HoldersUpdate(ws[1..], w - 1, v, i);
      assert ws[w := v][1..] == ws[1..][w - 1 := v];
    }
  }

  function Places(p: Pool, i: nat): nat {
    Occurrences(p.queue, i) + Holders(p.workers, i) + Occurrences(p.done, i)
  }

  /** An index that has been pushed is queued, held by one worker, or done. */
  ghost predicate Accounted(p: Pool) {
    forall i: nat :: Places(p, i) == if i < p.pushed then 1 else 0
  }

  ghost predicate ResultsAt(p: Pool, answers: nat -> Answer, i: nat)
    requires i < |p.results| == |p.ids|
  {
    p.results[i] == if Occurrences(p.done, i) == 1 then Label(p.ids[i], answers(i)) else BLANK
  }

  ghost predicate Written(p: Pool, answers: nat -> Answer) {
    |p.results| == |p.ids| && forall i: nat :: i < |p.ids| ==> ResultsAt(p, answers, i)
  }

  ghost predicate Inv(p: Pool, answers: nat -> Answer) {
    && Accounted(p) && Written(p, answers)
    && p.pushed <= |p.ids| && (p.closed ==> p.pushed == |p.ids|)
    && |p.workers| == PoolSize(p.ids)
    && (forall w :: 0 <= w < |p.workers| && p.workers[w].Gone? ==> p.closed && p.queue == [])
  }

  lemma PlacesStep(p: Pool, a: Step, answers: nat -> Answer, i: nat)
    requires Enabled(p, a)
    ensures Places(Exec(p, a, answers), i) == Places(p, i) + if a.Push? && i == p.pushed then 1 else 0
  {
    match a
    case Push => OneMore(p.queue, p.pushed, i);
    case Close =>
    case Take(w) =>
      HoldersUpdate(p.workers, w, Busy(p.queue[0]), i);
      WithoutFirst(p.queue, i);
    case Deliver(w) =>
      HoldersUpdate(p.workers, w, Idle, i);
      OneMore(p.done, p.workers[w].idx, i);
    case Leave(w) => HoldersUpdate(p.workers, w, Gone, i);
  }

  /** A worker that holds an index is the only one, and its call is not done. */
  lemma HeldOnce(p: Pool, w: nat)
    requires Accounted(p) && w < |p.workers| && p.workers[w].Busy?
    ensures p.workers[w].idx < p.pushed && Occurrences(p.done, p.workers[w].idx) == 0
  {
    var i := p.workers[w].idx;
    HoldersUpdate(p.workers, w, Idle, i);
    assert Places(p, i) == if i < p.pushed then 1 else 0;
  }

  lemma WrittenStep(p: Pool, a: Step, answers: nat -> Answer)
    requires Accounted(p) && Written(p, answers) && Enabled(p, a)
    ensures Written(Exec(p, a, answers), answers)
  {
    var p' := Exec(p, a, answers);
    if a.Deliver? {
      HeldOnce(p, a.w);
      forall i: nat | i < |p.ids|
        ensures ResultsAt(p', answers, i)
      {
        assert ResultsAt(p, answers, i);
        OneMore(p.done, p.workers[a.w].idx, i);
      }
    } else {
      forall i: nat | i < |p.ids|
        ensures ResultsAt(p', answers, i)
      {
        assert ResultsAt(p, answers, i);
      }
    }
  }

  lemma InvStep(p: Pool, a: Step, answers: nat -> Answer)
    requires Inv(p, answers) && Enabled(p, a)
    ensures Inv(Exec(p, a, answers), answers)
  {
    var p' := Exec(p, a, answers);
    WrittenStep(p, a, answers);
    forall i: nat
      ensures Places(p', i) == if i < p'.pushed then 1 else 0
    {
      PlacesStep(p, a, answers, i);
      assert Places(p, i) == if i < p.pushed then 1 else 0;
    }
  }

  // -------------------------------------------------------------------------
  // Progress
  // -------------------------------------------------------------------------

  function StepsLeft(w: Worker): nat {
    match w
    case Idle => 1
    case Busy(_) => 2
    case Gone => 0
  }

  function Work(ws: seq<Worker>): nat {
    if ws == [] then 0 else StepsLeft(ws[0]) + Work(ws[1..])
  }

  lemma {:induction false} WorkUpdate(ws: seq<Worker>, w: nat, v: Worker)
    requires w < |ws|
    ensures Work(ws[w := v]) == Work(ws) - StepsLeft(ws[w]) + StepsLeft(v)
  {
    if w == 0 {
      assert ws[0 := v][1..] == ws[1..];
    } else {
      WorkUpdate(ws[1..], w - 1, v);
      assert ws[w := v][1..] == ws[1..][w - 1 := v];
    }
  }

  /** Every index still to be pushed costs three steps, a queued one two, and so on. */
  function Measure(p: Pool): nat
    requires p.pushed <= |p.ids|
  {
    3 * (|p.ids| - p.pushed) + 2 * |p.queue| + Work(p.workers) + if p.closed then 0 else 1
  }

  lemma OneStepLess(p: Pool, a: Step, answers: nat -> Answer)
    requires p.pushed <= |p.ids| && Enabled(p, a)
    ensures Exec(p, a, answers).pushed <= |p.ids| && Exec(p, a, answers).ids == p.ids
    ensures Measure(Exec(p, a, answers)) == Measure(p) - 1
  {
    match a
    case Take(w) => WorkUpdate(p.workers, w, Busy(p.queue[0]));
    case Deliver(w) => WorkUpdate(p.workers, w, Idle);
    case Leave(w) => WorkUpdate(p.workers, w, Gone);
    case _ =>
  }

  predicate Finished(p: Pool) {
    forall w <- p.workers :: w.Gone?
  }

  /** Nobody waits in vain: as long as one worker is left, somebody can move. */
  lemma NeverStuck(p: Pool, answers: nat -> Answer) returns (a: Step)
    requires Inv(p, answers) && !Finished(p)
    ensures Enabled(p, a)
  {
    var w :| 0 <= w < |p.workers| && !p.workers[w].Gone?;
    if p.workers[w].Busy? {
      HeldOnce(p, w);
      a := Deliver(w);
    } else if p.queue != [] {
      a := Take(w);
    } else if p.closed {
      a := Leave(w);
    } else {
      a := if p.pushed < |p.ids| then Push else Close;
    }
  }

  lemma {:induction false} AllIdle(ws: seq<Worker>, i: nat)
    requires forall w <- ws :: w.Idle?
    ensures Holders(ws, i) == 0 && Work(ws) == |ws|
  {
    if ws != [] { AllIdle(ws[1..], i); }
  }

  lemma StartedInv(ids: seq<CaseId>, answers: nat -> Answer)
    ensures Inv(Started(ids), answers) && Measure(Started(ids)) == 3 * |ids| + PoolSize(ids) + 1
  {
    var p := Started(ids);
    AllIdle(p.workers, 0);
    forall i: nat
      ensures Places(p, i) == 0
    {
      AllIdle(p.workers, i);
    }
  }

  lemma {:induction false} InvAlways(p: Pool, acts: seq<Step>, answers: nat -> Answer)
    requires Inv(p, answers) && Legal(p, acts, answers)
    ensures var r := ExecAll(p, acts, answers);
            Inv(r, answers) && r.ids == p.ids && Measure(r) + |acts| == Measure(p)
    decreases |acts|
  {
    if acts != [] {
      InvStep(p, acts[0], answers);
      OneStepLess(p, acts[0], answers);
      InvAlways(Exec(p, acts[0], answers), acts[1..], answers);
    }
  }

  lemma {:induction false} NothingHeld(ws: seq<Worker>, i: nat)
    requires forall w <- ws :: w.Gone?
    ensures Holders(ws, i) == 0 && Work(ws) == 0
  {
    if ws != [] {
      assert ws[0].Gone?;
      NothingHeld(ws[1..], i);
    }
  }

  /** Every index has been called exactly once and holds the result of its own call. */
  ghost predicate Complete(ids: seq<CaseId>, results: seq<CaseResult>, calls: seq<nat>, answers: nat -> Answer) {
    && |results| == |ids|
    && (forall i: nat :: Occurrences(calls, i) == if i < |ids| then 1 else 0)
    && (forall i :: 0 <= i < |ids| ==> results[i] == Label(ids[i], answers(i)))
  }

  lemma AllDone(p: Pool, answers: nat -> Answer)
    requires Inv(p, answers) && p.ids != [] && Finished(p)
    ensures Complete(p.ids, p.results, p.done, answers) && Measure(p) == 0
  {
    assert p.workers[0].Gone?;
    NothingHeld(p.workers, 0);
    forall i: nat
      ensures Occurrences(p.done, i) == if i < |p.ids| then 1 else 0
    {
      NothingHeld(p.workers, i);
      assert Places(p, i) == if i < p.pushed then 1 else 0;
    }
    forall i | 0 <= i < |p.ids|
      ensures p.results[i] == Label(p.ids[i], answers(i))
    {
      assert ResultsAt(p, answers, i);
    }
  }

  /** Any interleaving of producer and workers, over any list of ids with any repetitions:
      no index is called twice, results appear only at the indices whose calls have
      returned, the workers have left after exactly the stated number of steps and not
      before, and by then the work is complete. */
  lemma EveryIndexOnce(ids: seq<CaseId>, acts: seq<Step>, answers: nat -> Answer)
    requires Legal(Started(ids), acts, answers)
    ensures var p := ExecAll(Started(ids), acts, answers);
            && |acts| <= 3 * |ids| + (if |ids| < 3 then |ids| else 3) + 1
            && (forall i: nat :: Occurrences(p.done, i) <= 1)
            && Written(p, answers)
            && (ids != [] ==> (Finished(p) <==> |acts| == 3 * |ids| + (if |ids| < 3 then |ids| else 3) + 1))
            && |p.workers| == (if |ids| < 3 then |ids| else 3)
            && (ids != [] && Finished(p) ==> Complete(ids, p.results, p.done, answers))
  {
    StartedInv(ids, answers);
    InvAlways(Started(ids), acts, answers);
    var p := ExecAll(Started(ids), acts, answers);
    forall i: nat
      ensures Occurrences(p.done, i) <= 1
    {
      assert Places(p, i) == if i < p.pushed then 1 else 0;
    }
    if ids != [] && Finished(p) {
      AllDone(p, answers);
    } else if ids != [] {
      var a := NeverStuck(p, answers);
      OneStepLess(p, a, answers);
    }
  }

  /** The channel hands out the indices in the order in which they were pushed. */
  ghost predicate InOrder(p: Pool) {
    |p.queue| <= p.pushed && forall i :: 0 <= i < |p.queue| ==> p.queue[i] == p.pushed - |p.queue| + i
  }

  lemma {:induction false} TakenInOrder(p: Pool, acts: seq<Step>, answers: nat -> Answer)
    requires InOrder(p) && Legal(p, acts, answers)
    ensures InOrder(ExecAll(p, acts, answers))
    decreases |acts|
  {
    if acts != [] { TakenInOrder(Exec(p, acts[0], answers), acts[1..], answers); }
  }

  // -------------------------------------------------------------------------
  // The handler
  // -------------------------------------------------------------------------

  predicate Ready(p: Pool, w: nat) {
    w < |p.workers|
    && match p.workers[w]
       case Idle => p.queue != [] || p.closed
       case Busy(idx) => idx < |p.results| == |p.ids|
       case Gone => false
  }

  /** The scheduler picks the producer or any worker that can go on. */
  method Schedule(p: Pool, ghost answers: nat -> Answer) returns (a: Step)
    requires Inv(p, answers) && !Finished(p)
    ensures Enabled(p, a)
  {
    var producerFirst: bool := *;
    var canProduce := p.pushed < |p.ids| || !p.closed;
    if canProduce && (producerFirst || !exists w: nat :: w < |p.workers| && Ready(p, w)) {
      return if p.pushed < |p.ids| then Push else Close;
    }
    if !canProduce {
      ghost var step := NeverStuck(p, answers);
      assert Ready(p, step.w);
    }
    var w: nat :| w < |p.workers| && Ready(p, w);
    assert Ready(p, w);
    match p.workers[w] {
      case Busy(_) => return Deliver(w);
      case Idle => return if p.queue != [] then Take(w) else Leave(w);
    }
  }

  method Respond(caseIds: seq<CaseId>, answers: nat -> Answer)
    returns (code: int, results: array<CaseResult>, ghost calls: seq<nat>)
    ensures code == if caseIds == [] then 400 else 202
    ensures results.Length == |caseIds|
    ensures forall i :: 0 <= i < |caseIds| ==> results[i] == Label(caseIds[i], answers(i))
    ensures forall i :: 0 <= i < |caseIds| ==>
              && results[i].caseId == caseIds[i]
              && match answers(i)
                 case Refused(message) => results[i].status == "error" && results[i].error == message
                 case Code(code) =>
                   && results[i].error == ""
                   && (code == 200 ==> results[i].status == "complete")
                   && (code == 202 ==> results[i].status == "triggered")
                   && (code != 200 && code != 202 ==> results[i].status == "")
    ensures forall i: nat :: Occurrences(calls, i) == if i < |caseIds| then 1 else 0
  {
    results := new CaseResult[|caseIds|](_ => BLANK);
    if |caseIds| == 0 {
      return 400, results, [];
    }
    var p := Started(caseIds);
    StartedInv(caseIds, answers);
    while !Finished(p)
      invariant Inv(p, answers) && p.ids == caseIds && results.Length == |caseIds| && results[..] == p.results
      decreases Measure(p)
    {
      var a := Schedule(p, answers);
      InvStep(p, a, answers);
      OneStepLess(p, a, answers);
      if a.Deliver? {
        var idx := p.workers[a.w].idx;
        var cr := CaseResult(caseIds[idx], "", "");
        match answers(idx) {
          case Refused(message) => cr := cr.(status := "error", error := message);
          case Code(status) =>
            if status == 200 {
              cr := cr.(status := "complete");
            } else if status == 202 {
              cr := cr.(status := "triggered");
            }
        }
        results[idx] := cr;
      }
      p := Exec(p, a, answers);
    }
    AllDone(p, answers);
    assert forall i :: 0 <= i < |caseIds| ==> results[i] == results[..][i];
    return 202, results, p.done;
  }
}

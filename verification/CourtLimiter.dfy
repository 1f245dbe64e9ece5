/** The rate limiter of the court service: a bucket that is refilled to the brim by the
    first request a second or more after the last refill. */
module CourtLimiter {
  import Retry

  datatype Bucket = Bucket(tokens: int, maxPerSec: int, lastFill: int)

  function Refilled(b: Bucket, now: int): Bucket {
    if now - b.lastFill >= Retry.SECOND then b.(tokens := b.maxPerSec, lastFill := now) else b
  }

  predicate Allows(b: Bucket, now: int) {
    Refilled(b, now).tokens > 0
  }

  function Next(b: Bucket, now: int): Bucket {
    var r := Refilled(b, now);
    if r.tokens > 0 then r.(tokens := r.tokens - 1) else r
  }

  class CourtRateLimiter {
    var tokens: int
    const maxPerSec: int
    var lastFill: int

    ghost function Value(): Bucket
      reads this
    {
      Bucket(tokens, maxPerSec, lastFill)
    }

    constructor (maxPerSec: int, now: int)
      ensures Value() == Bucket(maxPerSec, maxPerSec, now)
    {
      tokens, this.maxPerSec, lastFill := maxPerSec, maxPerSec, now;
    }

    method Allow(now: int) returns (ok: bool)
      modifies this
      ensures ok == Allows(old(Value()), now)
      ensures Value() == Next(old(Value()), now)
      ensures var due := now >= old(lastFill) + 1_000_000_000;
              var filled := if due then maxPerSec else old(tokens);
              && (ok <==> filled > 0)
              && tokens == filled - (if ok then 1 else 0)
              && lastFill == if due then now else old(lastFill)
    {
      if now - lastFill >= Retry.SECOND {
        tokens := maxPerSec;
        lastFill := now;
      }
      if tokens > 0 {
        tokens := tokens - 1;
        return true;
      }
      return false;
    }
  }

  // -------------------------------------------------------------------------
  // Requests over a window
  // -------------------------------------------------------------------------

  /** Clock readings do not go back. */
  ghost predicate Chronological(times: seq<int>) {
    forall i, j :: 0 <= i < j < |times| ==> times[i] <= times[j]
  }

  function Granted(b: Bucket, times: seq<int>): nat
    decreases |times|
  {
    if times == [] then 0
    else (if Allows(b, times[0]) then 1 else 0) + Granted(Next(b, times[0]), times[1..])
  }

  function Positive(x: int): nat {
    if x > 0 then x else 0
  }

  lemma OneMoreRefill(m: nat, k: nat)
    ensures m * (k + 1) == m + m * k
  {}

  /** A request is paid for by the bucket, or by the refill it finds due. */
  lemma OneRequest(b: Bucket, now: int)
    ensures var b', due := Next(b, now), now - b.lastFill >= Retry.SECOND;
            && (if Allows(b, now) then 1 else 0) + Positive(b'.tokens)
               == Positive(if due then b.maxPerSec else b.tokens)
            && b'.maxPerSec == b.maxPerSec && b'.lastFill == (if due then now else b.lastFill)
  {}

  lemma ChronologicalTail(times: seq<int>)
    requires Chronological(times) && times != []
    ensures Chronological(times[1..]) && times[0] <= times[|times| - 1]
    ensures times[1..] != [] ==> times[1..][|times[1..]| - 1] == times[|times| - 1]
  {
    if |times| > 1 { assert times[0] <= times[|times| - 1]; }
  }

  /** Requests up to less than `k + 1` seconds after the last refill see at most `k` more. */
  lemma {:induction false} GrantedByRefills(b: Bucket, times: seq<int>, k: nat)
    requires Chronological(times)
    requires times != [] ==> times[|times| - 1] - b.lastFill < (k + 1) * Retry.SECOND
    ensures Granted(b, times) <= Positive(b.tokens) + Positive(b.maxPerSec) * k
    decreases |times|
  {
    if times != [] {
      var first, rest := times[0], times[1..];
      ChronologicalTail(times);
      OneRequest(b, first);
      if first - b.lastFill >= Retry.SECOND {
        GrantedByRefills(Next(b, first), rest, k - 1);
        OneMoreRefill(Positive(b.maxPerSec), k - 1);
      } else {
        GrantedByRefills(Next(b, first), rest, k);
      }
    }
  }

  /** Within any stretch shorter than `k` seconds at most `k + 1` bucketfuls are granted; in
      particular two within any stretch shorter than a second. A bucket never holds more
      than `maxPerSec`, so every limiter in use meets the premise. */
  lemma BurstBound(b: Bucket, times: seq<int>, k: nat)
    requires Chronological(times) && times != [] && b.tokens <= Positive(b.maxPerSec)
    requires times[|times| - 1] - times[0] < k * Retry.SECOND
    ensures Granted(b, times) <= Positive(b.maxPerSec) * (k + 1)
  {
    var first, rest := times[0], times[1..];
    ChronologicalTail(times);
    OneMoreRefill(Positive(b.maxPerSec), k);
    if first - b.lastFill >= Retry.SECOND {
      OneRequest(b, first);
      OneMoreRefill(Positive(b.maxPerSec), k - 1);
      GrantedByRefills(Next(b, first), rest, k - 1);
    } else {
      GrantedByRefills(b, times, k);
    }
  }

  function NextAll(b: Bucket, times: seq<int>): Bucket
    decreases |times|
  {
    if times == [] then b else NextAll(Next(b, times[0]), times[1..])
  }

  lemma {:induction false} NeverAboveTheBrim(b: Bucket, times: seq<int>)
    requires b.tokens <= Positive(b.maxPerSec)
    ensures NextAll(b, times).tokens <= Positive(b.maxPerSec) && NextAll(b, times).maxPerSec == b.maxPerSec
    decreases |times|
  {
    if times != [] {
      NeverAboveTheBrim(Next(b, times[0]), times[1..]);
    }
  }

  // -------------------------------------------------------------------------
  // The bound is attained
  // -------------------------------------------------------------------------

  function Repeated(t: int, n: nat): seq<int> {
    seq(n, _ => t)
  }

  lemma {:induction false} DrainThen(b: Bucket, t: int, n: nat, rest: seq<int>)
    requires b.tokens >= n && t - b.lastFill < Retry.SECOND
    ensures Granted(b, Repeated(t, n) + rest) == n + Granted(b.(tokens := b.tokens - n), rest)
    decreases n
  {
    if n == 0 {
      assert Repeated(t, 0) + rest == rest;
    } else {
      var times := Repeated(t, n) + rest;
      assert times[0] == t && times[1..] == Repeated(t, n - 1) + rest;
      DrainThen(Next(b, t), t, n - 1, rest);
    }
  }

  /** A full bucket drained just before its second is over and again just after it: twice
      the nominal rate within a nanosecond. */
  lemma SubSecondBoundIsTight(maxPerSec: nat, start: int) returns (times: seq<int>)
    requires maxPerSec > 0
    ensures Chronological(times) && times != [] && times[|times| - 1] - times[0] == 1
    ensures Granted(Bucket(maxPerSec, maxPerSec, start), times) == 2 * maxPerSec
  {
    var b := Bucket(maxPerSec, maxPerSec, start);
    var late := start + Retry.SECOND;
    var second := [late] + Repeated(late, maxPerSec - 1);
    times := Repeated(late - 1, maxPerSec) + second;
    DrainThen(b, late - 1, maxPerSec, second);
    var empty := b.(tokens := 0);
    assert second[0] == late && second[1..] == Repeated(late, maxPerSec - 1);
    assert Repeated(late, maxPerSec - 1) + [] == Repeated(late, maxPerSec - 1);
    DrainThen(Next(empty, late), late, maxPerSec - 1, []);
  }
}

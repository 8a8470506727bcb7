/**
 The sliding-window limiter on manual runs. A bucket keeps only the timestamps of
 the current window; the history functions keep every accepted call.
 */
module RateLimiter {
  type UserId = nat

  // The answers of one check. Asking an empty bucket for its oldest entry fails.
  datatype Verdict = Accepted | Rejected(retryAfter: int) | IndexError

  // int() of a float.
  function Truncate(x: real): int {
    if x >= 0.0 then x.Floor else -((-x).Floor)
  }

  function RetryAfter(oldest: real, window: real, now: real): int {
    var left := Truncate(oldest + window - now);
    if left > 1 then left else 1
  }

  // The timestamps not before a cutoff.
  function Since(times: seq<real>, cutoff: real): (r: seq<real>)
    ensures |r| <= |times|
  {
    if times == [] then []
    else
      var n := |times| - 1;
      var front := Since(times[..n], cutoff);
      if times[n] >= cutoff then front + [times[n]] else front
  }

  // Given the entries inside the window, the answer and whether the call is recorded.
  function Decide(inside: seq<real>, capacity: int, window: real, now: real): Verdict {
    if |inside| < capacity then Accepted
    else if inside == [] then IndexError
    else Rejected(RetryAfter(inside[0], window, now))
  }

  function Recorded(times: seq<real>, v: Verdict, now: real): seq<real> {
    if v.Accepted? then times + [now] else times
  }

  function BucketOf(buckets: map<UserId, seq<real>>, user: UserId): seq<real> {
    if user in buckets then buckets[user] else []
  }

  class ManualRunRateLimiter {
    const capacity: int
    const window: real
    var buckets: map<UserId, seq<real>>

    constructor (capacity: int, window: real)
      ensures this.capacity == capacity && this.window == window && buckets == map[]
    {
      this.capacity := capacity;
      this.window := window;
      buckets := map[];
    }

    // One check touches one user's bucket, even when it refuses.
    method Check(user: UserId, now: real) returns (v: Verdict)
      modifies this`buckets
      ensures var inside := Since(BucketOf(old(buckets), user), now - window);
              && v == Decide(inside, capacity, window, now)
              && buckets == old(buckets)[user := Recorded(inside, v, now)]
    {
      var cutoff := now - window;
      var timestamps := Since(BucketOf(buckets, user), cutoff);
      buckets := buckets[user := timestamps];
      if |timestamps| >= capacity {
        if timestamps == [] { return IndexError; }
        return Rejected(RetryAfter(timestamps[0], window, now));
      }
      buckets := buckets[user := timestamps + [now]];
      v := Accepted;
    }
  }

  // ---------------------------------------------------- one user's calls in time

  // The times of one user's checks, the latest outermost.
  datatype Calls = NoCalls | Then(before: Calls, now: real)

  // The bucket, and every accepted call so far.
  datatype Track = Track(bucket: seq<real>, history: seq<real>)

  // What the limiter answers a user whose earlier checks came at these times.
  function Answer(calls: Calls, capacity: int, window: real, now: real): Verdict {
    Decide(Since(After(calls, capacity, window).bucket, now - window), capacity, window, now)
  }

  function Step(t: Track, capacity: int, window: real, now: real): Track {
    var inside := Since(t.bucket, now - window);
    var v := Decide(inside, capacity, window, now);
    Track(Recorded(inside, v, now), Recorded(t.history, v, now))
  }

  function After(calls: Calls, capacity: int, window: real): Track {
    match calls
    case NoCalls => Track([], [])
    case Then(before, now) => Step(After(before, capacity, window), capacity, window, now)
  }

  // The clock has not gone back, and `now` is not before the last check.
  ghost predicate InOrder(calls: Calls, now: real) {
    calls.Then? ==> calls.now <= now && InOrder(calls.before, calls.now)
  }

  ghost predicate Sorted(times: seq<real>, now: real) {
    && (forall i | 0 <= i < |times| :: times[i] <= now)
    && (forall i, j | 0 <= i < j < |times| :: times[i] <= times[j])
  }

  // --------------------------------------------------------------- filter laws

  lemma SinceAppend(times: seq<real>, now: real, c: real)
    ensures Since(times + [now], c) == if now >= c then Since(times, c) + [now] else Since(times, c)
  {
    assert (times + [now])[..|times|] == times;
  }

  lemma {:induction false} SinceTwice(times: seq<real>, c: real, d: real)
    requires c <= d
    ensures Since(Since(times, c), d) == Since(times, d)
  {
    if times != [] {
      var n := |times| - 1;
      SinceTwice(times[..n], c, d);
      SinceAppend(Since(times[..n], c), times[n], d);
    }
  }

  // How many timestamps lie in a closed interval.
  function Count(times: seq<real>, lo: real, hi: real): nat {
    if times == [] then 0
    else Count(times[..|times| - 1], lo, hi) + (if lo <= times[|times| - 1] <= hi then 1 else 0)
  }

  lemma CountAppend(times: seq<real>, now: real, lo: real, hi: real)
    ensures Count(times + [now], lo, hi) == Count(times, lo, hi) + (if lo <= now <= hi then 1 else 0)
  {
    assert (times + [now])[..|times|] == times;
  }

  lemma {:induction false} CountIsAtMostSince(times: seq<real>, lo: real, hi: real)
    ensures Count(times, lo, hi) <= |Since(times, lo)|
  {
    if times != [] { CountIsAtMostSince(times[..|times| - 1], lo, hi); }
  }

  // ------------------------------------------------------------- main results

  lemma StepKeepsBucket(t: Track, capacity: int, window: real, last: real, now: real)
    requires Since(t.bucket, last - window) == Since(t.history, last - window) && last <= now
    ensures var t' := Step(t, capacity, window, last);
            Since(t'.bucket, now - window) == Since(t'.history, now - window)
  {
    hide Since;
    SinceTwice(t.bucket, last - window, now - window);
    SinceTwice(t.history, last - window, now - window);
    SinceAppend(Since(t.bucket, last - window), last, now - window);
    SinceAppend(t.history, last, now - window);
  }

  lemma {:induction false} BucketIsHistorySince(calls: Calls, capacity: int, window: real, now: real)
    requires InOrder(calls, now) && window >= 0.0
    ensures var t := After(calls, capacity, window);
            Since(t.bucket, now - window) == Since(t.history, now - window)
    decreases calls
  {
    hide Since, Step;
    if calls.Then? {
      BucketIsHistorySince(calls.before, capacity, window, calls.now);
      StepKeepsBucket(After(calls.before, capacity, window), capacity, window, calls.now, now);
    }
  }

  /** The pruned bucket decides as the full history would: the next verdict is the
      one given by every call ever accepted. */
  lemma BucketDecidesLikeHistory(calls: Calls, capacity: int, window: real, now: real)
    requires InOrder(calls, now) && window >= 0.0
    ensures Answer(calls, capacity, window, now) ==
            Decide(Since(After(calls, capacity, window).history, now - window), capacity, window, now)
  {
    BucketIsHistorySince(calls, capacity, window, now);
  }

  lemma {:induction false} SinceIsCount(times: seq<real>, lo: real, hi: real)
    requires forall i | 0 <= i < |times| :: times[i] <= hi
    ensures |Since(times, lo)| == Count(times, lo, hi)
  {
    if times != [] { SinceIsCount(times[..|times| - 1], lo, hi); }
  }

  /** A call is accepted exactly when fewer than the capacity were accepted in the window
      that ends with it, and exactly the accepted calls make up the history. */
  lemma AcceptedWhileThereIsRoom(calls: Calls, capacity: int, window: real, now: real)
    requires InOrder(calls, now) && window >= 0.0
    ensures var history := After(calls, capacity, window).history;
            var accepted := Answer(calls, capacity, window, now).Accepted?;
            && (accepted <==> Count(history, now - window, now) < capacity)
            && After(Then(calls, now), capacity, window).history == (if accepted then history + [now] else history)
            && After(NoCalls, capacity, window).history == []
  {
    hide Since, Count;
    BucketIsHistorySince(calls, capacity, window, now);
    HistoryIsSorted(calls, capacity, window, now);
    SinceIsCount(After(calls, capacity, window).history, now - window, now);
  }

  // A call accepted because its own window had room leaves room in every window.
  lemma AcceptedFits(t: Track, capacity: int, window: real, now: real, x: real)
    requires Since(t.bucket, now - window) == Since(t.history, now - window)
    requires Count(t.history, x, x + window) <= capacity
    ensures Count(Step(t, capacity, window, now).history, x, x + window) <= capacity
  {
    hide Since, Count;
    CountAppend(t.history, now, x, x + window);
    if now <= x + window {
      SinceTwice(t.history, now - window, x);
      CountIsAtMostSince(t.history, x, x + window);
    }
  }

  /** No closed window of the configured length holds more accepted calls than the
      capacity, wherever it starts. */
  lemma {:induction false} WindowHoldsAtMostCapacity(calls: Calls, capacity: int, window: real, now: real, x: real)
    requires InOrder(calls, now) && window >= 0.0 && capacity >= 0
    ensures Count(After(calls, capacity, window).history, x, x + window) <= capacity
    decreases calls
  {
    hide Since, Step;
    if calls.Then? {
      WindowHoldsAtMostCapacity(calls.before, capacity, window, calls.now, x);
      BucketIsHistorySince(calls.before, capacity, window, calls.now);
      AcceptedFits(After(calls.before, capacity, window), capacity, window, calls.now, x);
    }
  }

  lemma {:induction false} BucketWithinCapacity(calls: Calls, capacity: int, window: real)
    requires capacity >= 0
    ensures |After(calls, capacity, window).bucket| <= capacity
  {
    if calls.Then? { BucketWithinCapacity(calls.before, capacity, window); }
  }

  lemma {:induction false} HistoryIsSorted(calls: Calls, capacity: int, window: real, now: real)
    requires InOrder(calls, now)
    ensures Sorted(After(calls, capacity, window).history, now)
  {
    if calls.Then? {
      hide Since, Decide;
      HistoryIsSorted(calls.before, capacity, window, calls.now);
    }
  }

  // The first of the sorted entries since a cutoff, and when it leaves the window.
  lemma {:induction false} OldestLeavesFirst(times: seq<real>, c: real, d: real, now: real)
    requires Sorted(times, now) && c <= d && Since(times, c) != []
    ensures var oldest := Since(times, c)[0];
            && c <= oldest <= times[|times| - 1]
            && (|Since(times, d)| < |Since(times, c)| <==> oldest < d)
  {
    var n := |times| - 1;
    SinceTwice(times, c, d);
    if Since(times[..n], c) != [] {
      OldestLeavesFirst(times[..n], c, d, now);
      assert times[..n][n - 1] == times[n - 1] <= times[n];
    } else {
      SinceTwice(times[..n], c, d);
    }
  }

  lemma RetryAfterBounds(oldest: real, window: real, now: real)
    requires oldest >= now - window
    ensures var wait := RetryAfter(oldest, window, now) as real;
            && now + wait + 1.0 > oldest + window
            && (now + wait > oldest + window <==> oldest + window - now < 1.0)
  {
  }

  // One sequence of checks continues another.
  ghost predicate Continues(calls: Calls, more: Calls) {
    more == calls || (more.Then? && Continues(calls, more.before))
  }

  lemma {:induction false} OrderGoesBack(calls: Calls, more: Calls, now: real, later: real)
    requires Continues(Then(calls, now), more) && InOrder(more, later)
    ensures InOrder(calls, now) && now <= later
  {
    if more != Then(calls, now) { OrderGoesBack(calls, more.before, now, more.now); }
  }

  /** After a rejection, and until another call is accepted, a call is accepted
      exactly when the oldest entry of the full window has left it. Waiting
      Retry-After + 1 seconds is always enough; waiting exactly Retry-After is
      enough if and only if less than a second was left. */
  lemma RetryAfterFrees(calls: Calls, capacity: int, window: real, now: real, more: Calls, later: real)
    requires Continues(Then(calls, now), more) && InOrder(more, later) && window >= 0.0
    requires Answer(calls, capacity, window, now).Rejected?
    requires After(more, capacity, window).history == After(calls, capacity, window).history
    ensures var oldest := Since(After(calls, capacity, window).bucket, now - window)[0];
            var wait := Answer(calls, capacity, window, now).retryAfter as real;
            var accepted := Answer(more, capacity, window, later).Accepted?;
            && (accepted <==> later > oldest + window)
            && (later >= now + wait + 1.0 ==> accepted)
            && (later == now + wait ==> (accepted <==> oldest + window - now < 1.0))
  {
    hide Since, After, Continues, RetryAfter;
    ZeroCapacityFails(calls, capacity, window, now);
    OrderGoesBack(calls, more, now, later);
    BucketIsHistorySince(calls, capacity, window, now);
    BucketDecidesLikeHistory(more, capacity, window, later);
    BucketWithinCapacity(calls, capacity, window);
    HistoryIsSorted(calls, capacity, window, now);
    var h := After(calls, capacity, window).history;
    OldestLeavesFirst(h, now - window, later - window, now);
    RetryAfterBounds(Since(h, now - window)[0], window, now);
  }

  lemma {:induction false} NothingRecorded(calls: Calls, capacity: int, window: real)
    requires capacity <= 0
    ensures After(calls, capacity, window).bucket == []
  {
    if calls.Then? { NothingRecorded(calls.before, capacity, window); }
  }

  /** A limiter whose capacity is zero or less never rejects: every check fails with
      an index error instead, and no other limiter ever does. */
  lemma ZeroCapacityFails(calls: Calls, capacity: int, window: real, now: real)
    ensures Answer(calls, capacity, window, now) == IndexError <==> capacity <= 0
  {
    if capacity <= 0 { NothingRecorded(calls, capacity, window); }
  }

  // --------------------------------------------------------------- many users

  // Every check of a warm process, the latest outermost.
  datatype Checks = NoChecks | Checked(earlier: Checks, user: UserId, at: real)

  function Own(checks: Checks, user: UserId): Calls {
    match checks
    case NoChecks => NoCalls
    case Checked(earlier, who, at) => if who == user then Then(Own(earlier, user), at) else Own(earlier, user)
  }

  // The dictionary those checks leave.
  function Buckets(checks: Checks, capacity: int, window: real): map<UserId, seq<real>> {
    match checks
    case NoChecks => map[]
    case Checked(earlier, user, at) =>
      var buckets := Buckets(earlier, capacity, window);
      var inside := Since(BucketOf(buckets, user), at - window);
      buckets[user := Recorded(inside, Decide(inside, capacity, window, at), at)]
  }

  /** A user's bucket is decided by that user's own checks alone. */
  lemma {:induction false} UsersAreIndependent(checks: Checks, capacity: int, window: real, user: UserId)
    ensures BucketOf(Buckets(checks, capacity, window), user) == After(Own(checks, user), capacity, window).bucket
  {
    hide Since;
    if checks.Checked? { UsersAreIndependent(checks.earlier, capacity, window, user); }
  }
}

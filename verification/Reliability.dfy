/**
 The in-memory guards of the LLM client: a circuit breaker per provider, a daily
 call cap, and the daily spend guard. Each class is the mutable form of a state
 value; the laws over whole histories are about the values.
 */
module Reliability {
  import opened Wrappers

  // ------------------------------------------------------------ circuit breaker

  datatype BreakerState = BreakerState(failThreshold: int, coolDown: real, failures: int, openedAt: Option<real>)
  {
    predicate Cooling(now: real) {
      openedAt.Some? && now - openedAt.value < coolDown
    }

    function Succeed(): BreakerState {
      this.(failures := 0, openedAt := None)
    }

    // A failure at or past the threshold renews `openedAt`, half-open or not.
    function Fail(now: real): BreakerState {
      var n := failures + 1;
      this.(failures := n, openedAt := if n >= failThreshold then Some(now) else openedAt)
    }

    predicate Trips() {
      failures + 1 >= failThreshold && openedAt.None?
    }
  }

  const DEFAULT_BREAKER := BreakerState(5, 60.0, 0, None)

  class CircuitBreaker {
    var failThreshold: int
    var coolDownSeconds: real
    var consecutiveFailures: int
    var openedAt: Option<real>

    function State(): BreakerState
      reads this
    {
      BreakerState(failThreshold, coolDownSeconds, consecutiveFailures, openedAt)
    }

    constructor (s: BreakerState)
      ensures State() == s
    {
      failThreshold, coolDownSeconds, consecutiveFailures, openedAt :=
          s.failThreshold, s.coolDown, s.failures, s.openedAt;
    }

    // The error carries the instant the cool-down ends.
    method BeforeCall(now: real) returns (r: Result<(), real>)
      ensures r.Err? <==> State().Cooling(now)
      ensures r.Err? <==> openedAt.Some? && now - openedAt.value < coolDownSeconds
      ensures r.Err? ==> r.error > now && State().openedAt == Some(r.error - coolDownSeconds)
    {
      if openedAt.None? { return Ok(()); }
      if now - openedAt.value < coolDownSeconds { return Err(openedAt.value + coolDownSeconds); }
      return Ok(());
    }

    method RecordSuccess()
      modifies this
      ensures State() == old(State()).Succeed()
      ensures consecutiveFailures == 0 && openedAt.None?
    {
      consecutiveFailures := 0;
      openedAt := None;
    }

    method RecordFailure(now: real) returns (tripped: bool)
      modifies this
      ensures State() == old(State()).Fail(now) && tripped == old(State()).Trips()
      ensures consecutiveFailures == old(consecutiveFailures) + 1
      ensures openedAt == if consecutiveFailures >= failThreshold then Some(now) else old(openedAt)
      ensures tripped <==> consecutiveFailures >= failThreshold && old(openedAt).None?
      ensures failThreshold == old(failThreshold) && coolDownSeconds == old(coolDownSeconds)
    {
      var wasOpen := openedAt.Some?;
      consecutiveFailures := consecutiveFailures + 1;
      if consecutiveFailures >= failThreshold {
        openedAt := Some(now);
        return !wasOpen;
      }
      return false;
    }
  }

  datatype BreakerEvent = Success | Failure(at: real)

  function Replay(b: BreakerState, events: seq<BreakerEvent>): BreakerState {
    if events == [] then b
    else
      var before := Replay(b, events[..|events| - 1]);
      match events[|events| - 1]
      case Success => before.Succeed()
      case Failure(at) => before.Fail(at)
  }

  // Length of the run of failures at the end of a history.
  function TrailingFailures(events: seq<BreakerEvent>): nat {
    if events == [] || events[|events| - 1].Success? then 0
    else 1 + TrailingFailures(events[..|events| - 1])
  }

  // A threshold of zero or less opens at the first failure.
  function TripLength(b: BreakerState): int {
    if b.failThreshold < 1 then 1 else b.failThreshold
  }

  /** Over every history of a fresh breaker the counter is the trailing failure run,
      the breaker is open exactly when that run is long enough, and it then carries
      the time of the latest failure. */
  lemma {:induction false} BreakerTracksTrailingRun(b: BreakerState, events: seq<BreakerEvent>)
    requires b.failures == 0 && b.openedAt.None?
    ensures var s := Replay(b, events);
            && s.failThreshold == b.failThreshold && s.coolDown == b.coolDown
            && s.failures == TrailingFailures(events)
            && (s.openedAt.Some? <==> TrailingFailures(events) >= TripLength(b))
            && (s.openedAt.Some? ==> events[|events| - 1].Failure? && s.openedAt.value == events[|events| - 1].at)
  {
    if events != [] { BreakerTracksTrailingRun(b, events[..|events| - 1]); }
  }

  /** A recorded failure reports an opening exactly when it makes the run reach the
      trip length: once per run, and never again while half-open. */
  lemma TripsOncePerRun(b: BreakerState, events: seq<BreakerEvent>, at: real)
    requires b.failures == 0 && b.openedAt.None?
    ensures Replay(b, events).Trips() <==> TrailingFailures(events + [Failure(at)]) == TripLength(b)
  {
    BreakerTracksTrailingRun(b, events);
    assert (events + [Failure(at)])[..|events|] == events;
  }

  // ------------------------------------------------------------------ daily cap

  datatype CapState = CapState(maxCalls: int, day: int, used: int)
  {
    function Roll(today: int): CapState {
      if today != day then this.(day := today, used := 0) else this
    }

    predicate Allows(today: int) {
      Roll(today).used < maxCalls
    }

    function Consume(today: int): CapState {
      var r := Roll(today);
      if r.used < maxCalls then r.(used := r.used + 1) else r
    }
  }

  class RateCap {
    var maxCalls: int
    var day: int
    var used: int

    function State(): CapState
      reads this
    {
      CapState(maxCalls, day, used)
    }

    constructor (maxCalls: int, today: int)
      ensures State() == CapState(maxCalls, today, 0)
    {
      this.maxCalls, day, used := maxCalls, today, 0;
    }

    method Consume(today: int) returns (allowed: bool)
      modifies this
      ensures State() == old(State()).Consume(today) && allowed == old(State()).Allows(today)
      ensures var before := if today == old(day) then old(used) else 0;
              (allowed <==> before < maxCalls) && used == (if allowed then before + 1 else before)
      ensures day == today && maxCalls == old(maxCalls)
    {
      if today != day {
        day := today;
        used := 0;
      }
      if used >= maxCalls { return false; }
      used := used + 1;
      return true;
    }
  }

  function AfterRequests(c: CapState, days: seq<int>): CapState {
    if days == [] then c else AfterRequests(c, days[..|days| - 1]).Consume(days[|days| - 1])
  }

  // Requests made, and requests granted, on one day.
  function Requested(days: seq<int>, d: int): nat {
    if days == [] then 0
    else Requested(days[..|days| - 1], d) + (if days[|days| - 1] == d then 1 else 0)
  }

  function Granted(c: CapState, days: seq<int>, d: int): nat {
    if days == [] then 0
    else
      var n := |days| - 1;
      Granted(c, days[..n], d) + (if days[n] == d && AfterRequests(c, days[..n]).Allows(d) then 1 else 0)
  }

  function CapOf(c: CapState): nat { if c.maxCalls < 0 then 0 else c.maxCalls }

  function Min(a: nat, b: nat): nat { if a < b then a else b }

  lemma {:induction false} CapCountsToday(c: CapState, days: seq<int>)
    requires c.used == 0 && (forall i | 0 <= i < |days| :: c.day <= days[i])
    requires forall i, j | 0 <= i < j < |days| :: days[i] <= days[j]
    ensures var s := AfterRequests(c, days);
            && s.maxCalls == c.maxCalls && s.day == (if days == [] then c.day else days[|days| - 1])
            && s.used == Min(Requested(days, s.day), CapOf(c))
            && forall d :: d > s.day ==> Requested(days, d) == 0
  {
    if days != [] {
      var n := |days| - 1;
      CapCountsToday(c, days[..n]);
      if days[n] > AfterRequests(c, days[..n]).day { assert Requested(days[..n], days[n]) == 0; }
    }
  }

  /** With non-decreasing dates each day grants its first `maxCalls` requests and
      no more. */
  lemma {:induction false} DailyGrants(c: CapState, days: seq<int>, d: int)
    requires c.used == 0 && (forall i | 0 <= i < |days| :: c.day <= days[i])
    requires forall i, j | 0 <= i < j < |days| :: days[i] <= days[j]
    ensures Granted(c, days, d) == Min(Requested(days, d), CapOf(c))
  {
    if days != [] {
      var n := |days| - 1;
      DailyGrants(c, days[..n], d);
      CapCountsToday(c, days[..n]);
      CapCountsToday(c, days);
      var s := AfterRequests(c, days[..n]);
      if days[n] == d && s.day != d { assert Requested(days[..n], d) == 0; }
    }
  }

  // -------------------------------------------------------------- budget guard

  datatype GuardState = GuardState(cap: Option<real>, day: int, spent: real)
  {
    function Roll(today: int): GuardState {
      if today != day then this.(day := today, spent := 0.0) else this
    }

    // A check rolls the date; the guard without a cap does nothing at all.
    function Check(today: int): GuardState {
      if cap.None? then this else Roll(today)
    }

    predicate Exceeded(today: int) {
      cap.Some? && Roll(today).spent >= cap.value
    }

    function Record(cost: real, today: int): GuardState {
      if cap.None? then this else Roll(today).(spent := Roll(today).spent + cost)
    }
  }

  class LLMBudgetGuard {
    var dailyCapUsd: Option<real>
    var day: int
    var spentUsd: real

    function State(): GuardState
      reads this
    {
      GuardState(dailyCapUsd, day, spentUsd)
    }

    constructor (cap: Option<real>, today: int)
      ensures State() == GuardState(cap, today, 0.0)
    {
      dailyCapUsd, day, spentUsd := cap, today, 0.0;
    }

    method CheckBeforeCall(today: int) returns (exceeded: bool)
      modifies this
      ensures State() == old(State()).Check(today) && exceeded == old(State()).Exceeded(today)
      ensures var spent := if today == old(day) then old(spentUsd) else 0.0;
              exceeded <==> dailyCapUsd.Some? && spent >= dailyCapUsd.value
      ensures dailyCapUsd == old(dailyCapUsd)
    {
      if dailyCapUsd.None? { return false; }
      if today != day {
        day := today;
        spentUsd := 0.0;
      }
      return spentUsd >= dailyCapUsd.value;
    }

    method Record(cost: real, today: int)
      modifies this
      ensures State() == old(State()).Record(cost, today)
      ensures dailyCapUsd.Some? ==>
                day == today && spentUsd == (if today == old(day) then old(spentUsd) else 0.0) + cost
    {
      if dailyCapUsd.None? { return; }
      if today != day {
        day := today;
        spentUsd := 0.0;
      }
      spentUsd := spentUsd + cost;
    }
  }

  // One call, not overlapping the next: the date of its check, and for a call that
  // succeeds the date and cost of its record.
  datatype Spend = Spend(checkDay: int, success: bool, recordDay: int, cost: real)

  function AfterCall(g: GuardState, c: Spend): GuardState {
    var checked := g.Check(c.checkDay);
    if g.Exceeded(c.checkDay) || !c.success then checked else checked.Record(c.cost, c.recordDay)
  }

  function AfterCalls(g: GuardState, calls: seq<Spend>): GuardState {
    if calls == [] then g else AfterCall(AfterCalls(g, calls[..|calls| - 1]), calls[|calls| - 1])
  }

  // Cost recorded on one date by the calls that were let through and succeeded.
  function SpentOn(g: GuardState, calls: seq<Spend>, d: int): real {
    if calls == [] then 0.0
    else
      var n := |calls| - 1;
      SpentOn(g, calls[..n], d)
      + (if !AfterCalls(g, calls[..n]).Exceeded(calls[n].checkDay) && calls[n].success && calls[n].recordDay == d
         then calls[n].cost else 0.0)
  }

  predicate InOrder(first: int, calls: seq<Spend>) {
    && (forall i | 0 <= i < |calls| :: first <= calls[i].checkDay <= calls[i].recordDay)
    && (forall i, j | 0 <= i < j < |calls| :: calls[i].recordDay <= calls[j].checkDay)
  }

  /** The guard's total is the cost of the successes recorded on its date, and with
      every cost in [0, most] it never passes the cap by more than one call. */
  lemma {:induction false} GuardedSpend(g: GuardState, calls: seq<Spend>, most: real)
    requires g.cap.Some? && g.spent == 0.0 && InOrder(g.day, calls)
    requires most >= 0.0 && forall i | 0 <= i < |calls| :: 0.0 <= calls[i].cost <= most
    ensures var s := AfterCalls(g, calls);
            && s.cap == g.cap && s.spent == SpentOn(g, calls, s.day)
            && 0.0 <= s.spent <= (if g.cap.value < 0.0 then 0.0 else g.cap.value) + most
            && g.day <= s.day && (calls != [] ==> s.day <= calls[|calls| - 1].recordDay)
            && (forall d :: d > s.day ==> SpentOn(g, calls, d) == 0.0)
  {
    if calls != [] {
      var n := |calls| - 1;
      GuardedSpend(g, calls[..n], most);
      var s, c := AfterCalls(g, calls[..n]), calls[n];
      assert s.day <= c.checkDay by {
        if n > 0 { assert calls[..n][n - 1] == calls[n - 1]; }
      }
      if c.checkDay > s.day { assert SpentOn(g, calls[..n], c.checkDay) == 0.0; }
      if c.recordDay > s.day { assert SpentOn(g, calls[..n], c.recordDay) == 0.0; }
    }
  }
}

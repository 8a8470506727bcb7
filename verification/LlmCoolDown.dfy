/**
 The cool-down over histories: what a provider's breaker recorded over any sequence
 of calls, and what that keeps later entries from doing.
 */
module LlmCoolDown {
  import opened Wrappers
  import opened Reliability
  import opened LlmClient
  import opened LlmClientLaws
  import opened LlmClientHistories

  // ---------------------------------------------------------- recorded outcomes

  // What an entry's attempts record: a failure for every refusal, with the clock
  // then read, and a success for the answer.
  function AttemptEvents(cfg: Config, o: Oracle, name: string, s: ClientState, attempt: nat): seq<BreakerEvent>
    requires name in s.breakers && attempt <= cfg.maxRetries
    decreases cfg.maxRetries - attempt
  {
    match o.reply(|s.attempts|)
    case Answer(_) => [Success]
    case Refusal(retryable) =>
      [Failure(o.clock(s.readings))]
      + (if !retryable || attempt == cfg.maxRetries then []
         else AttemptEvents(cfg, o, name, Slept(cfg, o, name, s, attempt), attempt + 1))
  }

  function CappedEvents(cfg: Config, o: Oracle, name: string, s: ClientState): seq<BreakerEvent>
    requires name in s.breakers
  {
    if name !in s.caps then AttemptEvents(cfg, o, name, s, 0)
    else
      var today := o.today(s.readings);
      if !s.caps[name].Allows(today) then []
      else
        AttemptEvents(cfg, o, name,
                      s.(caps := s.caps[name := s.caps[name].Consume(today)], readings := s.readings + 1), 0)
  }

  function EntryEvents(cfg: Config, o: Oracle, name: string, s: ClientState): seq<BreakerEvent> {
    var known := WithBreaker(s, name);
    if known.breakers[name].Cooling(o.clock(known.readings)) then []
    else CappedEvents(cfg, o, name, known.(readings := known.readings + 1))
  }

  // A payload that misses its schema records one failure more.
  function TryEvents(cfg: Config, o: Oracle, name: string, s: ClientState): seq<BreakerEvent> {
    var called := CallProvider(cfg, o, name, s);
    EntryEvents(cfg, o, name, s)
    + (if called.0.Some? && !o.fits(called.0.value.payload) then [Failure(o.clock(called.1.readings))] else [])
  }

  // What one provider's breaker records while positions from..to are tried in turn.
  function RangeEvents(cfg: Config, o: Oracle, name: string, chain: seq<string>, s: ClientState,
      to: nat): seq<BreakerEvent>
    requires to <= |chain|
  {
    if to == 0 then []
    else
      RangeEvents(cfg, o, name, chain, s, to - 1)
      + (if chain[to - 1] == name then TryEvents(cfg, o, name, StateAt(cfg, o, chain, s, to - 1)) else [])
  }

  // How many positions a call tries: up to and with the one that answers.
  function Tried(cfg: Config, o: Oracle, chain: seq<string>, i: nat, s: ClientState): (n: nat)
    requires i <= |chain|
    ensures i <= n <= |chain|
    decreases |chain| - i
  {
    if i == |chain| then i
    else
      var tried := TryProvider(cfg, o, chain[i], s);
      if tried.0.Some? then i + 1 else Tried(cfg, o, chain, i + 1, tried.1)
  }

  function Positions(c: Chain): seq<string> { [c.primary] + c.fallbacks }

  function CallEvents(c: Chain, o: Oracle, name: string, q: Request, s: ClientState): seq<BreakerEvent> {
    if OverBudget(o, s) || q.reidentify then []
    else
      var checked := CheckGuard(o, s);
      RangeEvents(c.cfg, o, name, Positions(c), checked, Tried(c.cfg, o, Positions(c), 0, checked))
  }

  function AllEvents(c: Chain, o: Oracle, name: string, requests: seq<Request>, s: ClientState): seq<BreakerEvent> {
    if requests == [] then []
    else
      var n := |requests| - 1;
      AllEvents(c, o, name, requests[..n], s) + CallEvents(c, o, name, requests[n], AfterAll(c, o, requests[..n], s))
  }

  // --------------------------------------------- the breaker is what was recorded

  // A provider never met has a fresh breaker.
  function BreakerAt(s: ClientState, name: string): BreakerState {
    if name in s.breakers then s.breakers[name] else DEFAULT_BREAKER
  }

  lemma {:induction false} ReplayJoins(b: BreakerState, x: seq<BreakerEvent>, y: seq<BreakerEvent>)
    ensures Replay(b, x + y) == Replay(Replay(b, x), y)
    decreases |y|
  {
    if y == [] {
      assert x + y == x;
    } else {
      assert (x + y)[..|x + y| - 1] == x + y[..|y| - 1];
      ReplayJoins(b, x, y[..|y| - 1]);
    }
  }

  lemma ReplayOne(b: BreakerState, e: BreakerEvent)
    ensures Replay(b, [e]) == match e case Success => b.Succeed() case Failure(at) => b.Fail(at)
  {
    assert [e][..0] == [];
    assert Replay(b, []) == b;
  }

  lemma {:induction false} AttemptsRecord(cfg: Config, o: Oracle, name: string, s: ClientState, attempt: nat)
    requires name in s.breakers && attempt <= cfg.maxRetries
    ensures Attempts(cfg, o, name, s, attempt).1.breakers[name]
        == Replay(s.breakers[name], AttemptEvents(cfg, o, name, s, attempt))
    decreases cfg.maxRetries - attempt
  {
    hide Replay, Backoff;
    var reply, events := o.reply(|s.attempts|), AttemptEvents(cfg, o, name, s, attempt);
    if reply.Answer? {
      ReplayOne(s.breakers[name], Success);
    } else {
      var first := Failure(o.clock(s.readings));
      ReplayOne(s.breakers[name], first);
      if reply.retryable && attempt < cfg.maxRetries {
        var slept := Slept(cfg, o, name, s, attempt);
        RetryGoesOn(cfg, o, name, s, attempt);
        AttemptsRecord(cfg, o, name, slept, attempt + 1);
        ReplayJoins(s.breakers[name], [first], AttemptEvents(cfg, o, name, slept, attempt + 1));
      } else {
        assert events == [first] + [] == [first];
      }
    }
  }

  lemma ReplayNone(b: BreakerState)
    ensures Replay(b, []) == b
  {
  }

  lemma EntryRecords(cfg: Config, o: Oracle, name: string, s: ClientState)
    ensures CallProvider(cfg, o, name, s).1.breakers[name] == Replay(BreakerAt(s, name), EntryEvents(cfg, o, name, s))
  {
    hide Replay, Attempts, AttemptEvents;
    var known := WithBreaker(s, name);
    var checked := known.(readings := known.readings + 1);
    ReplayNone(BreakerAt(s, name));
    if !known.breakers[name].Cooling(o.clock(known.readings)) {
      if name !in checked.caps {
        AttemptsRecord(cfg, o, name, checked, 0);
      } else if checked.caps[name].Allows(o.today(checked.readings)) {
        var today := o.today(checked.readings);
        var consumed := checked.(caps := checked.caps[name := checked.caps[name].Consume(today)],
                                 readings := checked.readings + 1);
        AttemptsRecord(cfg, o, name, consumed, 0);
      }
    }
  }

  lemma TryRecords(cfg: Config, o: Oracle, name: string, s: ClientState)
    ensures BreakerAt(TryProvider(cfg, o, name, s).1, name) == Replay(BreakerAt(s, name), TryEvents(cfg, o, name, s))
  {
    hide Replay, CallProvider, EntryEvents;
    var called, events := CallProvider(cfg, o, name, s), EntryEvents(cfg, o, name, s);
    EntryRecords(cfg, o, name, s);
    if called.0.Some? && !o.fits(called.0.value.payload) {
      var miss := Failure(o.clock(called.1.readings));
      ReplayOne(called.1.breakers[name], miss);
      ReplayJoins(BreakerAt(s, name), events, [miss]);
    } else {
      assert events + [] == events;
    }
  }

  lemma OthersKeepBreaker(cfg: Config, o: Oracle, entry: string, name: string, s: ClientState)
    requires entry != name
    ensures BreakerAt(TryProvider(cfg, o, entry, s).1, name) == BreakerAt(s, name)
  {
    hide Attempts;
    var known := WithBreaker(s, entry);
    var checked := known.(readings := known.readings + 1);
    if !known.breakers[entry].Cooling(o.clock(known.readings)) {
      if entry !in checked.caps {
        var k := RetryOutcome(cfg, o, entry, checked, 0);
      } else if checked.caps[entry].Allows(o.today(checked.readings)) {
        var today := o.today(checked.readings);
        var consumed := checked.(caps := checked.caps[entry := checked.caps[entry].Consume(today)],
                                 readings := checked.readings + 1);
        var k := RetryOutcome(cfg, o, entry, consumed, 0);
      }
    }
  }

  lemma {:induction false} RangeRecords(cfg: Config, o: Oracle, name: string, chain: seq<string>, s: ClientState,
      to: nat)
    requires to <= |chain|
    ensures BreakerAt(StateAt(cfg, o, chain, s, to), name)
        == Replay(BreakerAt(s, name), RangeEvents(cfg, o, name, chain, s, to))
  {
    hide Replay, TryProvider, TryEvents;
    if to == 0 {
      ReplayNone(BreakerAt(s, name));
    } else {
      var at, front := StateAt(cfg, o, chain, s, to - 1), RangeEvents(cfg, o, name, chain, s, to - 1);
      RangeRecords(cfg, o, name, chain, s, to - 1);
      if chain[to - 1] == name {
        TryRecords(cfg, o, name, at);
        ReplayJoins(BreakerAt(s, name), front, TryEvents(cfg, o, name, at));
      } else {
        OthersKeepBreaker(cfg, o, chain[to - 1], name, at);
        assert front + [] == front;
      }
    }
  }

  // The chain ends in the state after the positions it tried.
  lemma {:induction false} ChainEndsAt(cfg: Config, o: Oracle, chain: seq<string>, s: ClientState, i: nat)
    requires i <= |chain|
    ensures var from := StateAt(cfg, o, chain, s, i);
            TryChain(cfg, o, chain, i, from).1 == StateAt(cfg, o, chain, s, Tried(cfg, o, chain, i, from))
    decreases |chain| - i
  {
    hide TryProvider;
    if i < |chain| { ChainEndsAt(cfg, o, chain, s, i + 1); }
  }

  lemma CallRecords(c: Chain, o: Oracle, name: string, q: Request, s: ClientState)
    ensures BreakerAt(CallOnce(c, o, q, s).1, name) == Replay(BreakerAt(s, name), CallEvents(c, o, name, q, s))
  {
    hide Replay, TryChain, RangeEvents, Tried;
    ReplayNone(BreakerAt(s, name));
    if !OverBudget(o, s) && !q.reidentify {
      var checked := CheckGuard(o, s);
      ChainEndsAt(c.cfg, o, Positions(c), checked, 0);
      RangeRecords(c.cfg, o, name, Positions(c), checked, Tried(c.cfg, o, Positions(c), 0, checked));
    }
  }

  /** After any sequence of calls a provider's breaker is the replay of exactly what
      its entries recorded. */
  lemma {:induction false} BreakerIsItsHistory(c: Chain, o: Oracle, name: string, requests: seq<Request>,
      s: ClientState)
    ensures BreakerAt(AfterAll(c, o, requests, s), name)
        == Replay(BreakerAt(s, name), AllEvents(c, o, name, requests, s))
  {
    hide Replay, CallOnce, CallEvents;
    if requests == [] {
      ReplayNone(BreakerAt(s, name));
    } else {
      var n := |requests| - 1;
      var before := AfterAll(c, o, requests[..n], s);
      BreakerIsItsHistory(c, o, name, requests[..n], s);
      CallRecords(c, o, name, requests[n], before);
      ReplayJoins(BreakerAt(s, name), AllEvents(c, o, name, requests[..n], s),
                  CallEvents(c, o, name, requests[n], before));
    }
  }

  // ---------------------------------------------------------------- the cool-down

  lemma CoolingProviderIsSkipped(cfg: Config, o: Oracle, name: string, s: ClientState)
    requires BreakerAt(s, name).Cooling(o.clock(s.readings))
    ensures var r := CallProvider(cfg, o, name, s);
            r.0.None? && r.1.attempts == s.attempts && r.1.sleeps == s.sleeps && r.1.caps == s.caps
  {
  }

  // The state in which position i of the next call's chain is entered, and all that
  // the provider's breaker has recorded by then.
  function EntryState(c: Chain, o: Oracle, requests: seq<Request>, i: nat, s: ClientState): ClientState
    requires i <= |Positions(c)|
  {
    StateAt(c.cfg, o, Positions(c), CheckGuard(o, AfterAll(c, o, requests, s)), i)
  }

  function EventsBefore(c: Chain, o: Oracle, name: string, requests: seq<Request>, i: nat,
      s: ClientState): seq<BreakerEvent>
    requires i <= |Positions(c)|
  {
    AllEvents(c, o, name, requests, s)
        + RangeEvents(c.cfg, o, name, Positions(c), CheckGuard(o, AfterAll(c, o, requests, s)), i)
  }

  /** The cool-down over histories. Once the last outcomes a provider recorded are as
      many failures as its threshold asks, the latest at time t, every entry whose
      clock reads before t + coolDown attempts nothing, sleeps not at all and leaves
      its cap; and an entry is kept out by nothing else than that and the cap. */
  lemma CoolDownOverHistories(c: Chain, o: Oracle, name: string, requests: seq<Request>, i: nat, s: ClientState)
    requires i < |Positions(c)| && Positions(c)[i] == name
    requires var b := BreakerAt(s, name); b.failures == 0 && b.openedAt.None?
    ensures var b, entry, events := BreakerAt(s, name), EntryState(c, o, requests, i, s),
        EventsBefore(c, o, name, requests, i, s);
            var r := CallProvider(c.cfg, o, name, entry);
            var cooling := && TrailingFailures(events) >= TripLength(b) && events[|events| - 1].Failure?
                           && o.clock(entry.readings) - events[|events| - 1].at < b.coolDown;
            && (cooling ==>
                  r.0.None? && r.1.attempts == entry.attempts && r.1.sleeps == entry.sleeps && r.1.caps == entry.caps)
            && (|r.1.attempts| > |entry.attempts| <==>
                  !cooling && (name in entry.caps ==> entry.caps[name].Allows(o.today(entry.readings + 1))))
  {
    hide Replay, CallProvider, AllEvents, RangeEvents, AfterAll, TryProvider, TrailingFailures;
    var b, entry := BreakerAt(s, name), EntryState(c, o, requests, i, s);
    var after := AfterAll(c, o, requests, s);
    var checked := CheckGuard(o, after);
    BreakerIsItsHistory(c, o, name, requests, s);
    RangeRecords(c.cfg, o, name, Positions(c), checked, i);
    ReplayJoins(b, AllEvents(c, o, name, requests, s), RangeEvents(c.cfg, o, name, Positions(c), checked, i));
    var events := EventsBefore(c, o, name, requests, i, s);
    BreakerTracksTrailingRun(b, events);
    TrailingOfNone();
    var k := ProviderOutcome(c.cfg, o, name, entry);
    RepeatLength(name, k);
    if BreakerAt(entry, name).Cooling(o.clock(entry.readings)) { CoolingProviderIsSkipped(c.cfg, o, name, entry); }
  }

  lemma TrailingOfNone()
    ensures TrailingFailures([]) == 0
  {
  }

  /** A provider the client has not met yet gets five failures in a row before it is left
      out, and then sixty seconds from the latest. */
  lemma NewProviderCools(c: Chain, o: Oracle, name: string, requests: seq<Request>, i: nat, s: ClientState)
    requires i < |Positions(c)| && Positions(c)[i] == name && name !in s.breakers
    ensures var entry, events := EntryState(c, o, requests, i, s), EventsBefore(c, o, name, requests, i, s);
            var r := CallProvider(c.cfg, o, name, entry);
            var cooling := && TrailingFailures(events) >= 5 && events[|events| - 1].Failure?
                           && o.clock(entry.readings) - events[|events| - 1].at < 60.0;
            |r.1.attempts| > |entry.attempts| <==>
            !cooling && (name in entry.caps ==> entry.caps[name].Allows(o.today(entry.readings + 1)))
  {
    hide CallProvider, AllEvents, RangeEvents, AfterAll, TryProvider, TrailingFailures, EntryState, EventsBefore;
    CoolDownOverHistories(c, o, name, requests, i, s);
  }
}

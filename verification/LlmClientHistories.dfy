/**
 What sequences of calls keep: the budget, the daily caps and the cool-down. Each is
 told from the calls themselves, whose outcomes, entries and recorded events are
 functions of the requests made.
 */
module LlmClientHistories {
  import opened PromptLog
  import opened Wrappers
  import opened Reliability
  import opened LlmClient
  import opened LlmClientLaws

  datatype Request = Request(ticket: Ticket, logging: bool, reidentify: bool)

  // The providers of one client, in chain order.
  datatype Chain = Chain(cfg: Config, primary: string, fallbacks: seq<string>)

  function CallOnce(c: Chain, o: Oracle, q: Request, s: ClientState): (CallOutcome, ClientState) {
    Call(c.cfg, o, c.primary, c.fallbacks, q.ticket, q.logging, q.reidentify, s)
  }

  function AfterAll(c: Chain, o: Oracle, requests: seq<Request>, s: ClientState): ClientState {
    if requests == [] then s
    else
      var n := |requests| - 1;
      CallOnce(c, o, requests[n], AfterAll(c, o, requests[..n], s)).1
  }

  ghost predicate DatesInOrder(o: Oracle) {
    forall i: nat, j: nat :: i <= j ==> o.today(i) <= o.today(j)
  }

  ghost predicate CostsWithin(o: Oracle, most: real) {
    forall n: nat :: o.reply(n).Answer? ==> 0.0 <= o.reply(n).result.cost <= most
  }

  // -------------------------------------------------------------------- budget

  // A call as the budget guard sees it: the date of its check and, if it succeeds,
  // the date of its last reading and the cost of its result.
  function SpendOf(o: Oracle, before: ClientState, r: (CallOutcome, ClientState)): Spend {
    if r.0.Parsed? && r.1.readings > 0
    then Spend(o.today(before.readings), true, o.today(r.1.readings - 1), r.0.result.cost)
    else Spend(o.today(before.readings), false, o.today(before.readings), 0.0)
  }

  function Spends(c: Chain, o: Oracle, requests: seq<Request>, s: ClientState): seq<Spend> {
    if requests == [] then []
    else
      var n := |requests| - 1;
      var before := AfterAll(c, o, requests[..n], s);
      Spends(c, o, requests[..n], s) + [SpendOf(o, before, CallOnce(c, o, requests[n], before))]
  }

  /** Seen from the budget guard a call is one check and, if it succeeds, one record
      of its result's cost. */
  lemma CallIsOneSpend(c: Chain, o: Oracle, q: Request, s: ClientState)
    requires s.guard.Some?
    ensures var r := CallOnce(c, o, q, s);
            && r.1.guard == Some(AfterCall(s.guard.value, SpendOf(o, s, r))) && s.readings < r.1.readings
            && (r.0.Parsed? ==> !OverBudget(o, s) && s.readings <= r.1.readings - 1)
  {
    hide TryChain;
    ChainWithin(c.cfg, o, [c.primary] + c.fallbacks, 0, CheckGuard(o, s));
  }

  lemma ResultsComeFromReplies(c: Chain, o: Oracle, q: Request, s: ClientState, most: real)
    requires CostsWithin(o, most)
    ensures var r := CallOnce(c, o, q, s); r.0.Parsed? ==> 0.0 <= r.0.result.cost <= most
  {
    hide TryChain, CallProvider;
    var checked, chain := CheckGuard(o, s), [c.primary] + c.fallbacks;
    FirstAcceptableWins(c.cfg, o, chain, checked);
    var found := TryChain(c.cfg, o, chain, 0, checked).0;
    if found.Some? {
      var k := ProviderOutcome(c.cfg, o, chain[found.value.position],
                               StateAt(c.cfg, o, chain, checked, found.value.position));
    }
  }

  lemma OneSpend(c: Chain, o: Oracle, q: Request, s: ClientState, most: real)
    requires s.guard.Some? && DatesInOrder(o) && CostsWithin(o, most) && most >= 0.0
    ensures var r := CallOnce(c, o, q, s);
            var x := SpendOf(o, s, r);
            && r.1.guard == Some(AfterCall(s.guard.value, x)) && s.readings < r.1.readings && 0.0 <= x.cost <= most
            && x.checkDay == o.today(s.readings) && x.checkDay <= x.recordDay <= o.today(r.1.readings)
  {
    hide CallOnce;
    CallIsOneSpend(c, o, q, s);
    ResultsComeFromReplies(c, o, q, s, most);
  }

  // The spends of calls up to a date, each in order and within the cost of one.
  ghost predicate Orderly(first: int, spends: seq<Spend>, last: int, most: real) {
    && InOrder(first, spends) && first <= last
    && forall i | 0 <= i < |spends| :: 0.0 <= spends[i].cost <= most && spends[i].recordDay <= last
  }

  lemma OneMoreOrderly(first: int, spends: seq<Spend>, last: int, x: Spend, later: int, most: real)
    requires Orderly(first, spends, last, most) && 0.0 <= x.cost <= most
    requires last <= x.checkDay <= x.recordDay <= later
    ensures Orderly(first, spends + [x], later, most)
  {
  }

  lemma {:induction false} CallsAreSpends(c: Chain, o: Oracle, requests: seq<Request>, s: ClientState, most: real)
    requires s.guard.Some? && DatesInOrder(o) && CostsWithin(o, most) && most >= 0.0
        && s.guard.value.day <= o.today(s.readings)
    ensures var r, spends := AfterAll(c, o, requests, s), Spends(c, o, requests, s);
            && r.guard == Some(AfterCalls(s.guard.value, spends)) && |spends| == |requests| && s.readings <= r.readings
            && Orderly(s.guard.value.day, spends, o.today(r.readings), most)
  {
    hide CallOnce, SpendOf, AfterCall, Orderly;
    if requests == [] {
      assert Orderly(s.guard.value.day, [], o.today(s.readings), most) by { NoSpends(s.guard.value.day, o, s, most); }
    } else {
      var n := |requests| - 1;
      var before := AfterAll(c, o, requests[..n], s);
      CallsAreSpends(c, o, requests[..n], s, most);
      OneSpend(c, o, requests[n], before, most);
      var x := SpendOf(o, before, CallOnce(c, o, requests[n], before));
      var front, spends := Spends(c, o, requests[..n], s), Spends(c, o, requests, s);
      assert spends[..n] == front && spends == front + [x];
      OneMoreOrderly(s.guard.value.day, front, o.today(before.readings), x,
                     o.today(CallOnce(c, o, requests[n], before).1.readings), most);
    }
  }

  lemma NoSpends(first: int, o: Oracle, s: ClientState, most: real)
    requires first <= o.today(s.readings)
    ensures Orderly(first, [], o.today(s.readings), most)
  {
  }

  /** Over any sequence of calls with non-decreasing dates and single-call costs in
      [0, most], guarded spend never passes the cap by more than one call, and is
      the cost of the calls that succeeded with the guard's date as their last. */
  lemma BudgetHoldsOverCalls(c: Chain, o: Oracle, requests: seq<Request>, s: ClientState, most: real)
    requires s.guard.Some? && s.guard.value.cap.Some? && s.guard.value.spent == 0.0
        && s.guard.value.day <= o.today(s.readings)
    requires DatesInOrder(o) && CostsWithin(o, most) && most >= 0.0
    ensures var r, g := AfterAll(c, o, requests, s), s.guard.value;
            && r.guard.Some? && r.guard.value.cap == g.cap
            && 0.0 <= r.guard.value.spent <= (if g.cap.value < 0.0 then 0.0 else g.cap.value) + most
            && r.guard.value.spent == SpentOn(g, Spends(c, o, requests, s), r.guard.value.day)
  {
    CallsAreSpends(c, o, requests, s, most);
    GuardedSpend(s.guard.value, Spends(c, o, requests, s), most);
  }

  // The cost of the ok and fallback rows.
  function SuccessCost(rows: seq<LogRecord>): real {
    if rows == [] then 0.0
    else
      var n := |rows| - 1;
      SuccessCost(rows[..n]) + (if rows[n].status == CallError then 0.0 else rows[n].cost)
  }

  // How many rows there were before the last call in which the guard's date rolled.
  function RowsAtLastRoll(c: Chain, o: Oracle, requests: seq<Request>, s: ClientState): nat {
    if requests == [] then |s.rows|
    else
      var n := |requests| - 1;
      var before := AfterAll(c, o, requests[..n], s);
      var after := CallOnce(c, o, requests[n], before).1;
      if before.guard.Some? && after.guard.Some? && before.guard.value.day != after.guard.value.day then |before.rows|
      else RowsAtLastRoll(c, o, requests[..n], s)
  }

  lemma RefusedLogsNothing(c: Chain, o: Oracle, q: Request, s: ClientState)
    requires q.reidentify
    ensures var r := CallOnce(c, o, q, s); r.1.rows == s.rows && !r.0.Parsed?
  {
  }

  // What one logged call adds to the rows, and to their cost.
  lemma CallAddsItsCost(c: Chain, o: Oracle, q: Request, s: ClientState)
    requires q.logging
    ensures var r := CallOnce(c, o, q, s);
            && s.rows <= r.1.rows
            && SuccessCost(r.1.rows[|s.rows|..]) == (if r.0.Parsed? then r.0.result.cost else 0.0)
  {
    hide Call;
    var r := CallOnce(c, o, q, s);
    if q.reidentify {
      RefusedLogsNothing(c, o, q, s);
      assert r.1.rows[|s.rows|..] == [];
    } else {
      OneRowPerCall(c.cfg, o, c.primary, c.fallbacks, q.ticket, s);
      if r.0.BudgetExceeded? {
        assert r.1.rows[|s.rows|..] == [];
      } else {
        var row := r.1.rows[|s.rows|];
        assert r.1.rows[|s.rows|..] == [row] && [row][..0] == [];
      }
    }
  }

  lemma {:induction false} SuccessCostJoins(a: seq<LogRecord>, b: seq<LogRecord>)
    ensures SuccessCost(a + b) == SuccessCost(a) + SuccessCost(b)
    decreases |b|
  {
    if b == [] {
      assert a + b == a;
    } else {
      assert (a + b)[..|a + b| - 1] == a + b[..|b| - 1];
      SuccessCostJoins(a, b[..|b| - 1]);
    }
  }

  // One call either rolls the guard's date, leaving its own cost, or adds it.
  lemma GuardAddsOrRolls(g: GuardState, spend: Spend)
    requires g.cap.Some? && g.day <= spend.checkDay <= spend.recordDay
    requires spend.success ==> !g.Exceeded(spend.checkDay)
    ensures var after, cost := AfterCall(g, spend), if spend.success then spend.cost else 0.0;
            && after.cap == g.cap && g.day <= after.day
            && after.spent == if after.day == g.day then g.spent + cost else cost
  {
  }

  /** What the guard holds is what the log shows: with every call logged, the amount
      spent is the cost of the ok and fallback rows added since the guard's date
      last rolled. */
  lemma {:induction false} SpentIsLoggedCost(c: Chain, o: Oracle, requests: seq<Request>, s: ClientState)
    requires s.guard.Some? && s.guard.value.cap.Some? && s.guard.value.spent == 0.0
        && s.guard.value.day <= o.today(s.readings)
    requires DatesInOrder(o) && forall q | q in requests :: q.logging
    ensures var r, k := AfterAll(c, o, requests, s), RowsAtLastRoll(c, o, requests, s);
            && r.guard.Some? && r.guard.value.cap.Some? && s.readings <= r.readings
               && r.guard.value.day <= o.today(r.readings)
            && |s.rows| <= k <= |r.rows|
            && r.guard.value.spent == SuccessCost(r.rows[k..])
  {
    hide CallOnce, AfterCall;
    if requests == [] {
      assert s.rows[|s.rows|..] == [];
    } else {
      var n := |requests| - 1;
      var q, before := requests[n], AfterAll(c, o, requests[..n], s);
      SpentIsLoggedCost(c, o, requests[..n], s);
      var r, k := CallOnce(c, o, q, before), RowsAtLastRoll(c, o, requests[..n], s);
      CallIsOneSpend(c, o, q, before);
      CallAddsItsCost(c, o, q, before);
      GuardAddsOrRolls(before.guard.value, SpendOf(o, before, r));
      SuccessCostJoins(before.rows[k..], r.1.rows[|before.rows|..]);
      assert r.1.rows[k..] == before.rows[k..] + r.1.rows[|before.rows|..];
      assert AfterCall(before.guard.value,
                       SpendOf(o, before, r)).day <= o.today(r.1.readings) by { DayOfLastReading(o, before, r); }
    }
  }

  lemma DayOfLastReading(o: Oracle, before: ClientState, r: (CallOutcome, ClientState))
    requires DatesInOrder(o) && before.guard.Some? && before.readings < r.1.readings
        && before.guard.value.day <= o.today(before.readings)
    ensures AfterCall(before.guard.value, SpendOf(o, before, r)).day <= o.today(r.1.readings)
  {
    assert o.today(r.1.readings - 1) <= o.today(r.1.readings) && o.today(before.readings) <= o.today(r.1.readings);
  }

  // ------------------------------------------------------------ daily entries

  // One entry into a provider: the reading at which its cap is asked for the date,
  // and how many attempts it made.
  datatype Entry = Entry(provider: string, capReading: nat, attempts: nat)

  function EntryOf(c: Chain, o: Oracle, name: string, s: ClientState): Entry {
    var made := |CallProvider(c.cfg, o, name, s).1.attempts| - |s.attempts|;
    Entry(name, s.readings + 1, if made < 0 then 0 else made)
  }

  function ChainEntries(c: Chain, o: Oracle, chain: seq<string>, i: nat, s: ClientState): seq<Entry>
    requires i <= |chain|
    decreases |chain| - i
  {
    if i == |chain| then []
    else
      var tried := TryProvider(c.cfg, o, chain[i], s);
      [EntryOf(c, o, chain[i], s)] + (if tried.0.Some? then [] else ChainEntries(c, o, chain, i + 1, tried.1))
  }

  function CallEntries(c: Chain, o: Oracle, q: Request, s: ClientState): seq<Entry> {
    if OverBudget(o, s) || q.reidentify then []
    else ChainEntries(c, o, [c.primary] + c.fallbacks, 0, CheckGuard(o, s))
  }

  // Every entry made by a sequence of calls, in order.
  function Entries(c: Chain, o: Oracle, requests: seq<Request>, s: ClientState): seq<Entry> {
    if requests == [] then []
    else
      var n := |requests| - 1;
      Entries(c, o, requests[..n], s) + CallEntries(c, o, requests[n], AfterAll(c, o, requests[..n], s))
  }

  // Attempts made by a provider's entries, on any day or on one.
  function Made(entries: seq<Entry>, name: string): nat {
    if entries == [] then 0
    else
      var n := |entries| - 1;
      Made(entries[..n], name) + (if entries[n].provider == name then entries[n].attempts else 0)
  }

  predicate OnDay(o: Oracle, e: Entry, name: string, d: int) {
    e.provider == name && o.today(e.capReading) == d
  }

  function MadeOn(o: Oracle, entries: seq<Entry>, name: string, d: int): nat {
    if entries == [] then 0
    else
      var n := |entries| - 1;
      MadeOn(o, entries[..n], name, d) + (if OnDay(o, entries[n], name, d) then entries[n].attempts else 0)
  }

  // Entries of a provider on one day that attempted anything.
  function Entered(o: Oracle, entries: seq<Entry>, name: string, d: int): nat {
    if entries == [] then 0
    else
      var n := |entries| - 1;
      Entered(o, entries[..n], name, d) + (if OnDay(o, entries[n], name, d) && entries[n].attempts > 0 then 1 else 0)
  }

  function AttemptsBy(name: string, attempts: seq<string>): nat {
    if attempts == [] then 0
    else AttemptsBy(name, attempts[..|attempts| - 1]) + (if attempts[|attempts| - 1] == name then 1 else 0)
  }

  lemma {:induction false} AttemptsByRepeat(name: string, attempts: seq<string>, entry: string, k: nat)
    ensures AttemptsBy(name, attempts + Repeat(entry, k)) == AttemptsBy(name, attempts)
        + (if entry == name then k else 0)
    decreases k
  {
    if k == 0 {
      assert attempts + [] == attempts;
    } else {
      assert attempts + Repeat(entry, k) == (attempts + [entry]) + Repeat(entry, k - 1);
      AttemptsByRepeat(name, attempts + [entry], entry, k - 1);
      assert (attempts + [entry])[..|attempts|] == attempts;
    }
  }

  // The entries a cap has left to grant on a day: none once its date is past that
  // day, and all of them before.
  function Room(cap: CapState, d: int): nat {
    var r := cap.Roll(d);
    if cap.day > d || r.used >= r.maxCalls then 0 else r.maxCalls - r.used
  }

  lemma ConsumeTakesRoom(cap: CapState, today: int, d: int)
    requires cap.day <= today
    ensures cap.Consume(today).day == today && cap.Consume(today).maxCalls == cap.maxCalls
    ensures Room(cap.Consume(today), d) + (if today == d && cap.Allows(today) then 1 else 0) <= Room(cap, d)
  {
  }

  // What one stretch of the chain does to a provider's attempts, entries and cap.
  ghost predicate Accounted(c: Chain, o: Oracle, name: string, d: int, s: ClientState, s': ClientState,
      entries: seq<Entry>) {
    && s.readings <= s'.readings
    && (forall e | e in entries :: e.attempts <= c.cfg.maxRetries + 1)
    && AttemptsBy(name, s'.attempts) == AttemptsBy(name, s.attempts) + Made(entries, name)
    && (name in s.caps && s.caps[name].day <= o.today(s.readings) ==>
          && name in s'.caps && s'.caps[name].day <= o.today(s'.readings)
          && Entered(o, entries, name, d) + Room(s'.caps[name], d) <= Room(s.caps[name], d))
  }

  lemma {:induction false} CountsJoin(o: Oracle, a: seq<Entry>, b: seq<Entry>, name: string, d: int)
    ensures Made(a + b, name) == Made(a, name) + Made(b, name)
    ensures Entered(o, a + b, name, d) == Entered(o, a, name, d) + Entered(o, b, name, d)
    decreases |b|
  {
    if b == [] {
      assert a + b == a;
    } else {
      assert (a + b)[..|a + b| - 1] == a + b[..|b| - 1];
      CountsJoin(o, a, b[..|b| - 1], name, d);
    }
  }

  lemma AccountsJoin(c: Chain, o: Oracle, name: string, d: int, x: ClientState, y: ClientState, z: ClientState,
      a: seq<Entry>, b: seq<Entry>)
    requires Accounted(c, o, name, d, x, y, a) && Accounted(c, o, name, d, y, z, b)
    ensures Accounted(c, o, name, d, x, z, a + b)
  {
    hide AttemptsBy, Room, Made, Entered;
    CountsJoin(o, a, b, name, d);
  }

  lemma NothingToAccount(c: Chain, o: Oracle, name: string, d: int, s: ClientState, s': ClientState)
    requires DatesInOrder(o) && s'.caps == s.caps && s'.attempts == s.attempts && s.readings <= s'.readings
    ensures Accounted(c, o, name, d, s, s', [])
  {
    assert o.today(s.readings) <= o.today(s'.readings);
  }

  lemma OneEntry(o: Oracle, e: Entry, name: string, d: int)
    ensures Made([e], name) == (if e.provider == name then e.attempts else 0)
    ensures Entered(o, [e], name, d) == (if OnDay(o, e, name, d) && e.attempts > 0 then 1 else 0)
  {
    assert [e][..0] == [];
  }

  lemma OtherEntryAccounted(c: Chain, o: Oracle, name: string, d: int, entry: string, s: ClientState)
    requires DatesInOrder(o) && entry != name
    ensures Accounted(c, o, name, d, s, CallProvider(c.cfg, o, entry, s).1, [EntryOf(c, o, entry, s)])
  {
    hide CallProvider, Room, AttemptsBy, Made, Entered;
    var k := ProviderOutcome(c.cfg, o, entry, s);
    var s', e := CallProvider(c.cfg, o, entry, s).1, EntryOf(c, o, entry, s);
    RepeatLength(entry, k);
    AttemptsByRepeat(name, s.attempts, entry, k);
    OneEntry(o, e, name, d);
    assert o.today(s.readings) <= o.today(s'.readings);
  }

  // The cap after an entry: untouched while cooling, asked once otherwise.
  lemma CapAfterEntry(c: Chain, o: Oracle, name: string, s: ClientState)
    requires name in s.caps
    ensures var s', today := CallProvider(c.cfg, o, name, s).1, o.today(s.readings + 1);
            && name in s'.caps
            && (s'.caps[name] == s.caps[name]
                || (s'.caps[name] == s.caps[name].Consume(today) && s.readings + 2 <= s'.readings))
            && (Enters(o, name, s) ==> s'.caps[name] == s.caps[name].Consume(today) && s.readings + 2 <= s'.readings)
  {
    hide Attempts;
    var known := WithBreaker(s, name);
    var checked := known.(readings := known.readings + 1);
    if !known.breakers[name].Cooling(o.clock(known.readings)) && s.caps[name].Allows(o.today(checked.readings)) {
      var today := o.today(checked.readings);
      var consumed := checked.(caps := checked.caps[name := checked.caps[name].Consume(today)],
                               readings := checked.readings + 1);
      var k := RetryOutcome(c.cfg, o, name, consumed, 0);
    }
  }

  lemma OwnEntryAccounted(c: Chain, o: Oracle, name: string, d: int, s: ClientState)
    requires DatesInOrder(o)
    ensures Accounted(c, o, name, d, s, CallProvider(c.cfg, o, name, s).1, [EntryOf(c, o, name, s)])
  {
    hide CallProvider, Room, AttemptsBy, Made, Entered;
    var k := ProviderOutcome(c.cfg, o, name, s);
    var s', e := CallProvider(c.cfg, o, name, s).1, EntryOf(c, o, name, s);
    RepeatLength(name, k);
    AttemptsByRepeat(name, s.attempts, name, k);
    OneEntry(o, e, name, d);
    assert o.today(s.readings) <= o.today(s.readings + 1) && o.today(s.readings) <= o.today(s'.readings);
    if name in s.caps && s.caps[name].day <= o.today(s.readings) {
      CapAfterEntry(c, o, name, s);
      ConsumeTakesRoom(s.caps[name], o.today(s.readings + 1), d);
      if s.readings + 2 <= s'.readings { assert o.today(s.readings + 1) <= o.today(s'.readings); }
    }
  }

  lemma TryAccounted(c: Chain, o: Oracle, name: string, d: int, entry: string, s: ClientState)
    requires DatesInOrder(o)
    ensures Accounted(c, o, name, d, s, TryProvider(c.cfg, o, entry, s).1, [EntryOf(c, o, entry, s)])
  {
    hide CallProvider, Accounted, EntryOf;
    if entry == name { OwnEntryAccounted(c, o, name, d, s); } else { OtherEntryAccounted(c, o, name, d, entry, s); }
    var called := CallProvider(c.cfg, o, entry, s).1;
    var failed, e := FailBreaker(o, called, entry), EntryOf(c, o, entry, s);
    NothingToAccount(c, o, name, d, called, failed);
    AccountsJoin(c, o, name, d, s, called, failed, [e], []);
    assert [e] + [] == [e];
  }

  lemma {:induction false} ChainAccounted(c: Chain, o: Oracle, name: string, d: int, chain: seq<string>, i: nat,
      s: ClientState)
    requires DatesInOrder(o) && i <= |chain|
    ensures Accounted(c, o, name, d, s, TryChain(c.cfg, o, chain, i, s).1, ChainEntries(c, o, chain, i, s))
    decreases |chain| - i
  {
    hide TryProvider, Accounted, EntryOf;
    if i == |chain| {
      NothingToAccount(c, o, name, d, s, s);
    } else {
      var tried, e := TryProvider(c.cfg, o, chain[i], s), EntryOf(c, o, chain[i], s);
      TryAccounted(c, o, name, d, chain[i], s);
      if tried.0.Some? {
        assert [e] + [] == [e];
      } else {
        ChainAccounted(c, o, name, d, chain, i + 1, tried.1);
        var end := TryChain(c.cfg, o, chain, i + 1, tried.1).1;
        AccountsJoin(c, o, name, d, s, tried.1, end, [e], ChainEntries(c, o, chain, i + 1, tried.1));
      }
    }
  }

  lemma CallAccounted(c: Chain, o: Oracle, name: string, d: int, q: Request, s: ClientState)
    requires DatesInOrder(o)
    ensures Accounted(c, o, name, d, s, CallOnce(c, o, q, s).1, CallEntries(c, o, q, s))
  {
    hide TryChain, Accounted, ChainEntries;
    var checked, chain := CheckGuard(o, s), [c.primary] + c.fallbacks;
    var tried, end := TryChain(c.cfg, o, chain, 0, checked).1, CallOnce(c, o, q, s).1;
    NothingToAccount(c, o, name, d, s, checked);
    if !OverBudget(o, s) && !q.reidentify {
      var entries := ChainEntries(c, o, chain, 0, checked);
      ChainAccounted(c, o, name, d, chain, 0, checked);
      NothingToAccount(c, o, name, d, tried, end);
      AccountsJoin(c, o, name, d, s, checked, tried, [], entries);
      AccountsJoin(c, o, name, d, s, tried, end, [] + entries, []);
      assert [] + entries + [] == entries;
    }
  }

  lemma {:induction false} CallsAccounted(c: Chain, o: Oracle, name: string, d: int, requests: seq<Request>,
      s: ClientState)
    requires DatesInOrder(o)
    ensures Accounted(c, o, name, d, s, AfterAll(c, o, requests, s), Entries(c, o, requests, s))
  {
    hide CallOnce, Accounted, CallEntries;
    if requests == [] {
      NothingToAccount(c, o, name, d, s, s);
    } else {
      var n := |requests| - 1;
      var before := AfterAll(c, o, requests[..n], s);
      CallsAccounted(c, o, name, d, requests[..n], s);
      CallAccounted(c, o, name, d, requests[n], before);
      AccountsJoin(c, o, name, d, s, before, AfterAll(c, o, requests, s), Entries(c, o, requests[..n], s),
                   CallEntries(c, o, requests[n], before));
    }
  }

  function Product(a: nat, b: nat): nat { a * b }

  lemma ProductStep(a: nat, b: nat)
    ensures Product(a + 1, b) == Product(a, b) + b
  {
  }

  lemma ProductGrows(a: nat, b: nat, c: nat)
    requires a <= b
    ensures Product(a, c) <= b * c
  {
    assert b * c == a * c + (b - a) * c;
  }

  lemma {:induction false} EntriesBoundAttempts(o: Oracle, entries: seq<Entry>, name: string, d: int, most: nat)
    requires forall e | e in entries :: e.attempts <= most
    ensures MadeOn(o, entries, name, d) <= Product(Entered(o, entries, name, d), most)
  {
    hide Product;
    if entries == [] {
      ProductOfNone(most);
    } else {
      var n := |entries| - 1;
      EntriesBoundAttempts(o, entries[..n], name, d, most);
      ProductStep(Entered(o, entries[..n], name, d), most);
    }
  }

  lemma ProductOfNone(b: nat)
    ensures Product(0, b) == 0
  {
  }

  /** Over any sequence of calls with non-decreasing dates, and wherever the provider
      stands in the chain: every attempt belongs to an entry; on each day at most
      maxCalls entries of a capped provider attempt anything, counted by the date
      its cap read; and they make at most maxCalls * (maxRetries + 1) attempts. */
  lemma CapBoundsDailyAttempts(c: Chain, o: Oracle, name: string, d: int, requests: seq<Request>, s: ClientState)
    requires DatesInOrder(o) && name in s.caps && s.caps[name].used >= 0 && s.caps[name].day <= o.today(s.readings)
    ensures var r, entries := AfterAll(c, o, requests, s), Entries(c, o, requests, s);
            var most := CapOf(s.caps[name]);
            && AttemptsBy(name, r.attempts) == AttemptsBy(name, s.attempts) + Made(entries, name)
            && Entered(o, entries, name, d) <= most
            && MadeOn(o, entries, name, d) <= most * (c.cfg.maxRetries + 1)
  {
    hide AfterAll, Entries, AttemptsBy, Made, MadeOn, Entered, Product;
    CallsAccounted(c, o, name, d, requests, s);
    var entries := Entries(c, o, requests, s);
    EntriesBoundAttempts(o, entries, name, d, c.cfg.maxRetries + 1);
    ProductGrows(Entered(o, entries, name, d), CapOf(s.caps[name]), c.cfg.maxRetries + 1);
  }
}

/**
 The LLM facade: retries inside a provider, a breaker and a cap per provider name,
 the fallback chain across providers, and one log row per call.

 What lies outside is an oracle: the provider's reply to the n-th attempt, the
 n-th reading of each clock, the n-th jitter draw, and whether a payload fits the
 schema. `ClientState` is the value form of the object graph the class mutates.
 */
module LlmClient {
  import opened PromptLog
  import opened Wrappers
  import opened Reliability

  datatype Usage = Usage(tokensIn: nat, tokensOut: nat, cacheRead: nat, cacheWrite: nat, latencyMs: nat)

  const NO_USAGE := Usage(0, 0, 0, 0, 0)

  datatype CallResult = CallResult(payload: int, model: string, provider: string, usage: Usage, cost: real)

  datatype Reply = Answer(result: CallResult) | Refusal(retryable: bool)

  datatype Oracle = Oracle(
    reply: nat -> Reply,
    clock: nat -> real,
    today: nat -> int,
    jitter: nat -> real,
    fits: int -> bool)
  {
    // uniform(0, capped) draws a fraction of its upper bound.
    ghost predicate Lawful() {
      forall n :: 0.0 <= jitter(n) <= 1.0
    }
  }

  datatype Config = Config(maxRetries: nat, baseBackoff: real, maxBackoff: real)

  // The call's own identity, copied into its row.
  datatype Ticket = Ticket(promptVersionId: nat, emailId: Option<nat>, runId: Option<nat>, specModel: string,
                           redactions: Option<map<string, nat>>)

  datatype LogRecord = LogRecord(
    ticket: Ticket, model: string, usage: Usage, cost: real, status: CallStatus, provider: string)

  datatype ClientState = ClientState(
    breakers: map<string, BreakerState>,
    caps: map<string, CapState>,
    guard: Option<GuardState>,
    attempts: seq<string>, // provider of every attempt made so far
    readings: nat,            // clock, date and jitter readings so far
    sleeps: seq<real>,
    rows: seq<LogRecord>)

  // ------------------------------------------------------------- specification

  function Power2(n: nat): real {
    if n == 0 then 1.0 else 2.0 * Power2(n - 1)
  }

  // The longest delay after the n-th failed attempt.
  function BackoffBound(cfg: Config, attempt: nat): real {
    var base := cfg.baseBackoff * Power2(attempt);
    if base < cfg.maxBackoff then base else cfg.maxBackoff
  }

  // uniform(0, bound), given which fraction of the bound was drawn.
  function Fraction(u: real, bound: real): real {
    u * bound
  }

  function Backoff(cfg: Config, attempt: nat, jitter: real): real {
    Fraction(jitter, BackoffBound(cfg, attempt))
  }

  function WithBreaker(s: ClientState, name: string): (r: ClientState)
    ensures name in r.breakers
  {
    if name in s.breakers then s else s.(breakers := s.breakers[name := DEFAULT_BREAKER])
  }

  function FailBreaker(o: Oracle, s: ClientState, name: string): (r: ClientState)
    requires name in s.breakers
    ensures name in r.breakers
  {
    s.(breakers := s.breakers[name := s.breakers[name].Fail(o.clock(s.readings))], readings := s.readings + 1)
  }

  // The retry loop from a given attempt on.
  function Attempts(cfg: Config, o: Oracle, name: string, s: ClientState,
      attempt: nat): (r: (Option<CallResult>, ClientState))
    requires name in s.breakers && attempt <= cfg.maxRetries
    ensures name in r.1.breakers
    decreases cfg.maxRetries - attempt
  {
    var asked := s.(attempts := s.attempts + [name]);
    match o.reply(|s.attempts|)
    case Answer(result) => (Some(result), asked.(breakers := asked.breakers[name := asked.breakers[name].Succeed()]))
    case Refusal(retryable) =>
      var failed := FailBreaker(o, asked, name);
      if !retryable || attempt == cfg.maxRetries then (None, failed)
      else
        var slept := failed.(sleeps := failed.sleeps + [Backoff(cfg, attempt, o.jitter(failed.readings))],
                             readings := failed.readings + 1);
        Attempts(cfg, o, name, slept, attempt + 1)
  }

  // The daily cap, consumed once, then the loop.
  function CappedAttempts(cfg: Config, o: Oracle, name: string, s: ClientState): (r: (Option<CallResult>, ClientState))
    requires name in s.breakers
    ensures name in r.1.breakers
  {
    if name !in s.caps then Attempts(cfg, o, name, s, 0)
    else
      var today := o.today(s.readings);
      var consumed := s.(caps := s.caps[name := s.caps[name].Consume(today)], readings := s.readings + 1);
      if !s.caps[name].Allows(today) then (None, consumed)
      else Attempts(cfg, o, name, consumed, 0)
  }

  // The breaker, asked once, then the cap and the loop.
  function CallProvider(cfg: Config, o: Oracle, name: string, s: ClientState): (r: (Option<CallResult>, ClientState))
    ensures name in r.1.breakers
  {
    var known := WithBreaker(s, name);
    var checked := known.(readings := known.readings + 1);
    if known.breakers[name].Cooling(o.clock(known.readings)) then (None, checked)
    else CappedAttempts(cfg, o, name, checked)
  }

  // One chain position: the provider's result if its payload fits the schema.
  function TryProvider(cfg: Config, o: Oracle, name: string, s: ClientState): (Option<CallResult>, ClientState) {
    var called := CallProvider(cfg, o, name, s);
    if called.0.None? then called
    else if o.fits(called.0.value.payload) then called
    else (None, FailBreaker(o, called.1, name))
  }

  datatype Found = Found(position: nat, result: CallResult)

  // The chain from a given position on, with the position that answered.
  function TryChain(cfg: Config, o: Oracle, chain: seq<string>, i: nat, s: ClientState): (Option<Found>, ClientState)
    requires i <= |chain|
    decreases |chain| - i
  {
    if i == |chain| then (None, s)
    else
      var tried := TryProvider(cfg, o, chain[i], s);
      if tried.0.Some? then (Some(Found(i, tried.0.value)), tried.1)
      else TryChain(cfg, o, chain, i + 1, tried.1)
  }

  datatype CallOutcome =
    | Parsed(position: nat, result: CallResult)
    | BudgetExceeded
    | ReidentifyRefused
    | AllFailed

  function CheckGuard(o: Oracle, s: ClientState): ClientState {
    if s.guard.None? then s
    else s.(guard := Some(s.guard.value.Check(o.today(s.readings))), readings := s.readings + 1)
  }

  predicate OverBudget(o: Oracle, s: ClientState) {
    s.guard.Some? && s.guard.value.Exceeded(o.today(s.readings))
  }

  function RecordSpend(o: Oracle, s: ClientState, cost: real): ClientState {
    if s.guard.None? then s
    else s.(guard := Some(s.guard.value.Record(cost, o.today(s.readings))), readings := s.readings + 1)
  }

  function SuccessRow(t: Ticket, position: nat, r: CallResult): LogRecord {
    LogRecord(t, r.model, r.usage, r.cost, if position == 0 then CallOk else CallFallback, r.provider)
  }

  function ErrorRow(t: Ticket, primary: string): LogRecord {
    LogRecord(t, t.specModel, NO_USAGE, 0.0, CallError, primary)
  }

  function LogRow(s: ClientState, logging: bool, row: LogRecord): ClientState {
    if logging then s.(rows := s.rows + [row]) else s
  }

  // `reidentify` is refused whatever the flow: no flow is on the allowlist.
  function Call(cfg: Config, o: Oracle, primary: string, fallbacks: seq<string>, t: Ticket, logging: bool,
      reidentify: bool, s: ClientState): (CallOutcome, ClientState) {
    var checked := CheckGuard(o, s);
    if OverBudget(o, s) then (BudgetExceeded, checked)
    else if reidentify then (ReidentifyRefused, checked)
    else
      var tried := TryChain(cfg, o, [primary] + fallbacks, 0, checked);
      if tried.0.Some? then
        var Found(position, result) := tried.0.value;
        (Parsed(position, result),
         RecordSpend(o, LogRow(tried.1, logging, SuccessRow(t, position, result)), result.cost))
      else (AllFailed, LogRow(tried.1, logging, ErrorRow(t, primary)))
  }

  // ------------------------------------------------------------------- classes

  // The clocks, the providers and the log callback, with what was asked of them.
  class Outside {
    const oracle: Oracle
    var attempts: seq<string>
    var readings: nat
    var sleeps: seq<real>
    var rows: seq<LogRecord>

    constructor (oracle: Oracle)
      ensures this.oracle == oracle && attempts == [] && readings == 0 && sleeps == [] && rows == []
    {
      this.oracle := oracle;
      attempts, readings, sleeps, rows := [], 0, [], [];
    }

    method Monotonic() returns (now: real)
      modifies this`readings
      ensures now == oracle.clock(old(readings)) && readings == old(readings) + 1
    {
      now := oracle.clock(readings);
      readings := readings + 1;
    }

    method Today() returns (day: int)
      modifies this`readings
      ensures day == oracle.today(old(readings)) && readings == old(readings) + 1
    {
      day := oracle.today(readings);
      readings := readings + 1;
    }

    method CompleteJson(name: string) returns (reply: Reply)
      modifies this`attempts
      ensures reply == oracle.reply(|old(attempts)|) && attempts == old(attempts) + [name]
    {
      reply := oracle.reply(|attempts|);
      attempts := attempts + [name];
    }

    method Sleep(cfg: Config, attempt: nat)
      modifies this`readings, this`sleeps
      ensures sleeps == old(sleeps) + [Backoff(cfg, attempt, oracle.jitter(old(readings)))]
          && readings == old(readings) + 1
    {
      sleeps := sleeps + [Backoff(cfg, attempt, oracle.jitter(readings))];
      readings := readings + 1;
    }
  }

  class LLMClient {
    const cfg: Config
    const primary: string
    const fallbacks: seq<string>
    const outside: Outside
    const rateCaps: map<string, RateCap>
    const budgetGuard: Option<LLMBudgetGuard>
    var breakers: map<string, CircuitBreaker>

    ghost predicate Valid()
      reads this
    {
      && (forall a, b | a in breakers && b in breakers && a != b :: breakers[a] != breakers[b])
      && (forall a, b | a in rateCaps && b in rateCaps && a != b :: rateCaps[a] != rateCaps[b])
    }

    ghost function Footprint(): set<object>
      reads this
    {
      {this, outside} + breakers.Values + rateCaps.Values
      + (if budgetGuard.Some? then {budgetGuard.value as object} else {})
    }

    ghost function BreakerStates(): map<string, BreakerState>
      reads this, breakers.Values
    {
      map n | n in breakers :: breakers[n].State()
    }

    ghost function CapStates(): map<string, CapState>
      reads this, rateCaps.Values
    {
      map n | n in rateCaps :: rateCaps[n].State()
    }

    ghost function State(): (s: ClientState)
      reads this, Footprint()
      ensures s.breakers.Keys == breakers.Keys && s.caps.Keys == rateCaps.Keys
      ensures s.guard.Some? <==> budgetGuard.Some?
    {
      ClientState(
        BreakerStates(), CapStates(),
        if budgetGuard.Some? then Some(budgetGuard.value.State()) else None,
        outside.attempts, outside.readings, outside.sleeps, outside.rows)
    }

    constructor (cfg: Config, primary: string, fallbacks: seq<string>, breakers: map<string, CircuitBreaker>,
                 rateCaps: map<string, RateCap>, budgetGuard: Option<LLMBudgetGuard>, outside: Outside)
      requires forall a, b | a in breakers && b in breakers && a != b :: breakers[a] != breakers[b]
      requires forall a, b | a in rateCaps && b in rateCaps && a != b :: rateCaps[a] != rateCaps[b]
      ensures Valid() && this.breakers == breakers
      ensures this.cfg == cfg && this.primary == primary && this.fallbacks == fallbacks && this.rateCaps == rateCaps
      ensures this.budgetGuard == budgetGuard && this.outside == outside
    {
      this.cfg, this.primary, this.fallbacks, this.rateCaps, this.budgetGuard, this.outside :=
        cfg, primary, fallbacks, rateCaps, budgetGuard, outside;
      this.breakers := breakers;
    }

    method BreakerFor(name: string) returns (b: CircuitBreaker)
      requires Valid()
      modifies this
      ensures Valid() && name in breakers && b == breakers[name]
      ensures name in old(breakers) ==> breakers == old(breakers)
      ensures name !in old(breakers) ==> fresh(b) && breakers == old(breakers)[name := b]
      ensures State() == WithBreaker(old(State()), name)
    {
      if name !in breakers {
        var fresh' := new CircuitBreaker(DEFAULT_BREAKER);
        breakers := breakers[name := fresh'];
      }
      b := breakers[name];
      assert State().breakers == WithBreaker(old(State()), name).breakers;
    }

    method RecordFailure(name: string)
      requires Valid() && name in breakers
      modifies breakers[name], outside`readings
      ensures Valid() && State() == FailBreaker(outside.oracle, old(State()), name)
    {
      var now := outside.Monotonic();
      var tripped := breakers[name].RecordFailure(now);
      assert State().breakers == FailBreaker(outside.oracle, old(State()), name).breakers;
    }

    method RecordSuccess(name: string)
      requires Valid() && name in breakers
      modifies breakers[name]
      ensures Valid()
      ensures State() == old(State()).(breakers := old(State()).breakers[name := old(State()).breakers[name].Succeed()])
    {
      breakers[name].RecordSuccess();
      assert State().breakers == old(State()).breakers[name := old(State()).breakers[name].Succeed()];
    }

    // The breaker's answer to one more reading of the clock.
    method BreakerOpen(name: string) returns (open: bool)
      requires Valid() && name in breakers
      modifies outside`readings
      ensures Valid() && State() == old(State()).(readings := old(State()).readings + 1)
      ensures open <==> old(State()).breakers[name].Cooling(outside.oracle.clock(old(State()).readings))
    {
      var now := outside.Monotonic();
      var r := breakers[name].BeforeCall(now);
      open := r.Err?;
    }

    method ConsumeCap(name: string) returns (allowed: bool)
      requires Valid() && name in rateCaps
      modifies rateCaps[name], outside`readings
      ensures Valid()
      ensures var s := old(State());
              var today := outside.oracle.today(s.readings);
              && State() == s.(caps := s.caps[name := s.caps[name].Consume(today)], readings := s.readings + 1)
              && allowed == s.caps[name].Allows(today)
    {
      var today := outside.Today();
      allowed := rateCaps[name].Consume(today);
      assert State().caps == old(State()).caps[name := old(State()).caps[name].Consume(today)];
    }

    method Ask(name: string) returns (reply: Reply)
      modifies outside`attempts
      ensures State() == old(State()).(attempts := old(State()).attempts + [name])
      ensures reply == outside.oracle.reply(|old(State()).attempts|)
    {
      reply := outside.CompleteJson(name);
    }

    method SleepAfter(attempt: nat)
      modifies outside`sleeps, outside`readings
      ensures var s := old(State());
              State() == s.(sleeps := s.sleeps + [Backoff(cfg, attempt, outside.oracle.jitter(s.readings))],
                            readings := s.readings + 1)
    {
      outside.Sleep(cfg, attempt);
    }

    // None is the provider error the retry loop raises.
    method RetryLoop(name: string) returns (result: Option<CallResult>)
      requires Valid() && name in breakers
      modifies breakers[name], outside
      ensures Valid() && (result, State()) == Attempts(cfg, outside.oracle, name, old(State()), 0)
    {
      hide LLMClient.State, Backoff, FailBreaker;
      var attempt := 0;
      while attempt <= cfg.maxRetries
        invariant attempt <= cfg.maxRetries && Valid() && name in breakers
        invariant Attempts(cfg, outside.oracle, name, old(State()), 0)
            == Attempts(cfg, outside.oracle, name, State(), attempt)
      {
        var reply := Ask(name);
        match reply {
          case Answer(r) =>
            RecordSuccess(name);
            return Some(r);
          case Refusal(retryable) =>
            RecordFailure(name);
            if !retryable || attempt == cfg.maxRetries { return None; }
            SleepAfter(attempt);
            attempt := attempt + 1;
        }
      }
    }

    method CappedLoop(name: string) returns (result: Option<CallResult>)
      requires Valid() && name in breakers
      modifies Footprint()
      ensures Valid() && breakers == old(breakers)
      ensures (result, State()) == CappedAttempts(cfg, outside.oracle, name, old(State()))
    {
      hide Attempts, LLMClient.State;
      if name in rateCaps {
        var allowed := ConsumeCap(name);
        if !allowed { return None; }
      }
      result := RetryLoop(name);
    }

    method CallOneProvider(name: string) returns (result: Option<CallResult>)
      requires Valid()
      modifies Footprint()
      ensures Valid() && fresh(Footprint() - old(Footprint())) && name in breakers
      ensures (result, State()) == CallProvider(cfg, outside.oracle, name, old(State()))
    {
      hide CappedAttempts, LLMClient.State;
      var b := BreakerFor(name);
      var open := BreakerOpen(name);
      if open { return None; }
      result := CappedLoop(name);
    }

    // One chain position; a payload that misses the schema counts as a failure
    // of a provider that has just recorded a success.
    method TryOneProvider(name: string) returns (result: Option<CallResult>)
      requires Valid()
      modifies Footprint()
      ensures Valid() && fresh(Footprint() - old(Footprint()))
      ensures (result, State()) == TryProvider(cfg, outside.oracle, name, old(State()))
    {
      hide CallProvider, LLMClient.State;
      result := CallOneProvider(name);
      if result.None? { return; }
      if !outside.oracle.fits(result.value.payload) {
        RecordFailure(name);
        return None;
      }
    }

    method CheckBudget() returns (exceeded: bool)
      requires Valid()
      modifies (if budgetGuard.Some? then {budgetGuard.value} else {}), outside`readings
      ensures Valid() && State() == CheckGuard(outside.oracle, old(State()))
          && exceeded == OverBudget(outside.oracle, old(State()))
    {
      exceeded := false;
      if budgetGuard.Some? {
        var today := outside.Today();
        exceeded := budgetGuard.value.CheckBeforeCall(today);
      }
      assert State().breakers == old(State()).breakers && State().caps == old(State()).caps;
    }

    method RecordBudget(cost: real)
      requires Valid()
      modifies (if budgetGuard.Some? then {budgetGuard.value} else {}), outside`readings
      ensures Valid() && State() == RecordSpend(outside.oracle, old(State()), cost)
    {
      if budgetGuard.Some? {
        var today := outside.Today();
        budgetGuard.value.Record(cost, today);
      }
      assert State().breakers == old(State()).breakers && State().caps == old(State()).caps;
    }

    method Log(logging: bool, row: LogRecord)
      modifies outside`rows
      ensures State() == LogRow(old(State()), logging, row)
    {
      if logging { outside.rows := outside.rows + [row]; }
      assert State().breakers == old(State()).breakers && State().caps == old(State()).caps;
    }

    method ChainLoop() returns (found: Option<Found>)
      requires Valid()
      modifies Footprint()
      ensures Valid() && (found, State()) == TryChain(cfg, outside.oracle, [primary] + fallbacks, 0, old(State()))
    {
      hide LLMClient.State, TryProvider;
      var chain := [primary] + fallbacks;
      var i := 0;
      while i < |chain|
        invariant 0 <= i <= |chain| && Valid() && fresh(Footprint() - old(Footprint()))
        invariant TryChain(cfg, outside.oracle, chain, 0, old(State()))
            == TryChain(cfg, outside.oracle, chain, i, State())
      {
        var result := TryOneProvider(chain[i]);
        if result.Some? { return Some(Found(i, result.value)); }
        i := i + 1;
      }
      return None;
    }

    method CallModel(ticket: Ticket, logging: bool, reidentify: bool) returns (outcome: CallOutcome)
      requires Valid()
      modifies Footprint()
      ensures Valid()
      ensures (outcome, State())
          == Call(cfg, outside.oracle, primary, fallbacks, ticket, logging, reidentify, old(State()))
    {
      hide LLMClient.State, TryChain, CheckGuard, OverBudget, RecordSpend, LogRow;
      var exceeded := CheckBudget();
      if exceeded { return BudgetExceeded; }
      if reidentify { return ReidentifyRefused; }
      var found := ChainLoop();
      match found {
        case Some(Found(position, result)) =>
          Log(logging, SuccessRow(ticket, position, result));
          RecordBudget(result.cost);
          return Parsed(position, result);
        case None =>
          Log(logging, ErrorRow(ticket, primary));
          return AllFailed;
      }
    }
  }
}

/** What the retry loop, the fallback chain and whole sequences of calls promise. */
module LlmClientLaws {
  import opened PromptLog
  import opened Wrappers
  import opened Reliability
  import opened LlmClient

  function Repeat(name: string, k: nat): seq<string> {
    if k == 0 then [] else [name] + Repeat(name, k - 1)
  }

  lemma {:induction false} RepeatLength(name: string, k: nat)
    ensures |Repeat(name, k)| == k
  {
    if k > 0 { RepeatLength(name, k - 1); }
  }

  // ----------------------------------------------------------------- retry loop

  // What the loop touches besides the attempts, readings and sleeps.
  ghost predicate OnlyBreaker(s: ClientState, s': ClientState, name: string) {
    && s'.caps == s.caps && s'.guard == s.guard && s'.rows == s.rows && s.readings <= s'.readings
    && name in s'.breakers && s'.breakers.Keys == s.breakers.Keys + {name}
    && forall n | n in s.breakers && n != name :: s'.breakers[n] == s.breakers[n]
  }

  lemma OnlyBreakerTransitive(a: ClientState, b: ClientState, c: ClientState, name: string)
    requires OnlyBreaker(a, b, name) && OnlyBreaker(b, c, name)
    ensures OnlyBreaker(a, c, name)
  {
  }

  // The state after a retryable refusal, its failure recorded and its delay slept.
  function Slept(cfg: Config, o: Oracle, name: string, s: ClientState, attempt: nat): ClientState
    requires name in s.breakers
  {
    var failed := FailBreaker(o, s.(attempts := s.attempts + [name]), name);
    failed.(sleeps := failed.sleeps + [Backoff(cfg, attempt, o.jitter(failed.readings))],
            readings := failed.readings + 1)
  }

  lemma SleptKeepsRest(cfg: Config, o: Oracle, name: string, s: ClientState, attempt: nat)
    requires name in s.breakers
    ensures var slept := Slept(cfg, o, name, s, attempt);
            name in slept.breakers && slept.attempts == s.attempts + [name] && OnlyBreaker(s, slept, name)
  {
    hide Backoff;
  }

  lemma RepeatMore(attempts: seq<string>, name: string, k: nat)
    ensures attempts + Repeat(name, k + 1) == attempts + [name] + Repeat(name, k)
  {
  }

  // What k attempts from a state on may have come to.
  ghost predicate TriedTimes(cfg: Config, o: Oracle, name: string, s: ClientState,
      r: (Option<CallResult>, ClientState), most: nat, k: nat)
    requires k > 0 && name in r.1.breakers
  {
    var n := |s.attempts|;
    && r.1.attempts == s.attempts + Repeat(name, k)
    && (forall i | n <= i < n + k - 1 :: o.reply(i) == Refusal(true))
    && (match o.reply(n + k - 1)
        case Answer(x) => r.0 == Some(x) && r.1.breakers[name].failures == 0 && r.1.breakers[name].openedAt.None?
        case Refusal(retryable) => r.0.None? && (!retryable || k == most))
  }

  lemma OneMoreTry(cfg: Config, o: Oracle, name: string, s: ClientState, slept: ClientState,
      r: (Option<CallResult>, ClientState), most: nat, k: nat)
    requires k > 0 && most > 0 && name in r.1.breakers && slept.attempts == s.attempts + [name]
    requires o.reply(|s.attempts|) == Refusal(true) && TriedTimes(cfg, o, name, slept, r, most - 1, k)
    ensures TriedTimes(cfg, o, name, s, r, most, k + 1)
  {
    RepeatMore(s.attempts, name, k);
  }

  lemma RetryGoesOn(cfg: Config, o: Oracle, name: string, s: ClientState, attempt: nat)
    requires name in s.breakers && attempt < cfg.maxRetries && o.reply(|s.attempts|) == Refusal(true)
    ensures var slept := Slept(cfg, o, name, s, attempt);
            name in slept.breakers && Attempts(cfg, o, name, s, attempt) == Attempts(cfg, o, name, slept, attempt + 1)
  {
    hide Backoff;
  }

  lemma RetryEnds(cfg: Config, o: Oracle, name: string, s: ClientState, attempt: nat)
    requires name in s.breakers && attempt <= cfg.maxRetries
    requires o.reply(|s.attempts|) == Refusal(true) ==> attempt == cfg.maxRetries
    ensures var r := Attempts(cfg, o, name, s, attempt);
            TriedTimes(cfg, o, name, s, r, cfg.maxRetries - attempt + 1, 1) && OnlyBreaker(s, r.1, name)
  {
    assert Repeat(name, 1) == [name] + Repeat(name, 0);
  }

  /** The loop makes k attempts: all but the last are retryable refusals, and the
      last is an answer, which is the result, or the refusal that ends the loop. */
  lemma {:induction false} RetryOutcome(cfg: Config, o: Oracle, name: string, s: ClientState, attempt: nat)
      returns (k: nat)
    requires name in s.breakers && attempt <= cfg.maxRetries
    ensures 1 <= k <= cfg.maxRetries - attempt + 1
    ensures var r := Attempts(cfg, o, name, s, attempt);
            TriedTimes(cfg, o, name, s, r, cfg.maxRetries - attempt + 1, k) && OnlyBreaker(s, r.1, name)
    decreases cfg.maxRetries - attempt
  {
    hide Attempts, OnlyBreaker, TriedTimes, Slept;
    if o.reply(|s.attempts|) == Refusal(true) && attempt < cfg.maxRetries {
      var slept := Slept(cfg, o, name, s, attempt);
      SleptKeepsRest(cfg, o, name, s, attempt);
      RetryGoesOn(cfg, o, name, s, attempt);
      var rest := RetryOutcome(cfg, o, name, slept, attempt + 1);
      var r := Attempts(cfg, o, name, slept, attempt + 1);
      OnlyBreakerTransitive(s, slept, r.1, name);
      OneMoreTry(cfg, o, name, s, slept, r, cfg.maxRetries - attempt + 1, rest);
      k := rest + 1;
    } else {
      k := 1;
      RetryEnds(cfg, o, name, s, attempt);
    }
  }

  function TwoTo(n: nat): nat {
    if n == 0 then 1 else TwoTo(n - 1) + TwoTo(n - 1)
  }

  // The smaller of the doubled base and the maximum.
  function LongestDelay(cfg: Config, retry: nat): real {
    var doubled := cfg.baseBackoff * (TwoTo(retry) as real);
    if doubled <= cfg.maxBackoff then doubled else cfg.maxBackoff
  }

  lemma {:induction false} PowerIsTwoTo(n: nat)
    ensures Power2(n) == TwoTo(n) as real
  {
    if n > 0 { PowerIsTwoTo(n - 1); }
  }

  lemma BoundIsLongest(cfg: Config, retry: nat)
    ensures BackoffBound(cfg, retry) == LongestDelay(cfg, retry)
  {
    hide Power2, TwoTo;
    PowerIsTwoTo(retry);
  }

  // The longest total delay of n consecutive retries.
  function SleepBudget(cfg: Config, from: nat, n: nat): real
    decreases n
  {
    if n == 0 then 0.0 else LongestDelay(cfg, from) + SleepBudget(cfg, from + 1, n - 1)
  }

  function Sum(xs: seq<real>): real {
    if xs == [] then 0.0 else xs[0] + Sum(xs[1..])
  }

  lemma ProductNonNegative(a: real, b: real)
    requires a >= 0.0 && b >= 0.0
    ensures a * b >= 0.0
  {
  }

  lemma FractionWithin(u: real, bound: real)
    requires 0.0 <= u <= 1.0 && bound >= 0.0
    ensures 0.0 <= Fraction(u, bound) <= bound
  {
    ProductNonNegative(u, bound);
    ProductNonNegative(1.0 - u, bound);
    assert (1.0 - u) * bound == bound - u * bound;
  }

  lemma {:induction false} PowerPositive(n: nat)
    ensures Power2(n) >= 1.0
  {
    if n > 0 { PowerPositive(n - 1); }
  }

  lemma BoundNonNegative(cfg: Config, attempt: nat)
    requires cfg.baseBackoff >= 0.0 && cfg.maxBackoff >= 0.0
    ensures BackoffBound(cfg, attempt) >= 0.0
  {
    hide Power2;
    PowerPositive(attempt);
    ProductNonNegative(cfg.baseBackoff, Power2(attempt));
  }

  lemma BackoffWithin(cfg: Config, attempt: nat, u: real)
    requires cfg.baseBackoff >= 0.0 && cfg.maxBackoff >= 0.0 && 0.0 <= u <= 1.0
    ensures 0.0 <= Backoff(cfg, attempt, u) <= BackoffBound(cfg, attempt)
  {
    hide BackoffBound, Fraction;
    BoundNonNegative(cfg, attempt);
    FractionWithin(u, BackoffBound(cfg, attempt));
  }

  lemma {:induction false} BudgetNonNegative(cfg: Config, from: nat, n: nat)
    requires cfg.baseBackoff >= 0.0 && cfg.maxBackoff >= 0.0
    ensures SleepBudget(cfg, from, n) >= 0.0
    decreases n
  {
    hide BackoffBound, LongestDelay;
    if n > 0 {
      BoundNonNegative(cfg, from);
      BoundIsLongest(cfg, from);
      BudgetNonNegative(cfg, from + 1, n - 1);
    }
  }

  lemma SumOfNone()
    ensures Sum([]) == 0.0
  {
  }

  lemma SumFrom(xs: seq<real>, n: nat)
    requires n < |xs|
    ensures Sum(xs[n..]) == xs[n] + Sum(xs[n + 1..])
  {
    assert xs[n..][1..] == xs[n + 1..];
  }

  lemma LastTrySleepsNot(cfg: Config, o: Oracle, name: string, s: ClientState, attempt: nat)
    requires name in s.breakers && attempt <= cfg.maxRetries
    requires o.reply(|s.attempts|) == Refusal(true) ==> attempt == cfg.maxRetries
    ensures Attempts(cfg, o, name, s, attempt).1.sleeps == s.sleeps
  {
  }

  /** One provider sleeps at most the sum of min(base * 2^i, max) over its retries. */
  lemma {:induction false} SleepsWithinBudget(cfg: Config, o: Oracle, name: string, s: ClientState, attempt: nat)
    requires name in s.breakers && attempt <= cfg.maxRetries
    requires o.Lawful() && cfg.baseBackoff >= 0.0 && cfg.maxBackoff >= 0.0
    ensures var r := Attempts(cfg, o, name, s, attempt).1;
            && s.sleeps <= r.sleeps
            && Sum(r.sleeps[|s.sleeps|..]) <= SleepBudget(cfg, attempt, cfg.maxRetries - attempt)
    decreases cfg.maxRetries - attempt
  {
    hide BackoffBound, LongestDelay, Backoff, Sum, Attempts;
    SumOfNone();
    BoundIsLongest(cfg, attempt);
    BudgetNonNegative(cfg, attempt, cfg.maxRetries - attempt);
    var r, n := Attempts(cfg, o, name, s, attempt).1, |s.sleeps|;
    if o.reply(|s.attempts|) == Refusal(true) && attempt < cfg.maxRetries {
      var slept := Slept(cfg, o, name, s, attempt);
      RetryGoesOn(cfg, o, name, s, attempt);
      var u := o.jitter(FailBreaker(o, s.(attempts := s.attempts + [name]), name).readings);
      assert slept.sleeps == s.sleeps + [Backoff(cfg, attempt, u)];
      hide Slept;
      BackoffWithin(cfg, attempt, u);
      SleepsWithinBudget(cfg, o, name, slept, attempt + 1);
      assert r.sleeps[n] == slept.sleeps[n];
      SumFrom(r.sleeps, n);
    } else {
      LastTrySleepsNot(cfg, o, name, s, attempt);
      assert r.sleeps[n..] == [];
    }
  }

  // ------------------------------------------------------------- one provider

  // Whether the guards in front of the loop let this entry through.
  predicate Enters(o: Oracle, name: string, s: ClientState) {
    && !WithBreaker(s, name).breakers[name].Cooling(o.clock(s.readings))
    && (name in s.caps ==> s.caps[name].Allows(o.today(s.readings + 1)))
  }

  /** An entry either makes no attempt and fails, or makes between one and
      maxRetries + 1 attempts and succeeds exactly when the last one answered. */
  lemma ProviderOutcome(cfg: Config, o: Oracle, name: string, s: ClientState) returns (k: nat)
    ensures var r, n := CallProvider(cfg, o, name, s), |s.attempts|;
            && r.1.attempts == s.attempts + Repeat(name, k) && k <= cfg.maxRetries + 1
            && (k > 0 <==> Enters(o, name, s))
            && (forall i | n <= i < n + k - 1 :: o.reply(i) == Refusal(true))
            && (r.0.Some? <==> k > 0 && o.reply(n + k - 1).Answer?)
            && (r.0.Some? ==> o.reply(n + k - 1) == Answer(r.0.value)
                              && r.1.breakers[name].failures == 0 && r.1.breakers[name].openedAt.None?)
            && (r.0.None? && k > 0 ==> o.reply(n + k - 1) == Refusal(false) || k == cfg.maxRetries + 1)
            && r.1.guard == s.guard && r.1.rows == s.rows && s.readings <= r.1.readings
            && r.1.caps.Keys == s.caps.Keys && forall c | c in s.caps && c != name :: r.1.caps[c] == s.caps[c]
  {
    hide Attempts;
    var checked := WithBreaker(s, name).(readings := s.readings + 1);
    assert Repeat(name, 0) == [] && s.attempts + [] == s.attempts;
    if WithBreaker(s, name).breakers[name].Cooling(o.clock(s.readings)) {
      k := 0;
    } else {
      k := CappedOutcome(cfg, o, name, checked);
    }
  }

  lemma CappedOutcome(cfg: Config, o: Oracle, name: string, s: ClientState) returns (k: nat)
    requires name in s.breakers
    ensures var r, n := CappedAttempts(cfg, o, name, s), |s.attempts|;
            && r.1.attempts == s.attempts + Repeat(name, k) && k <= cfg.maxRetries + 1
            && (k > 0 <==> (name in s.caps ==> s.caps[name].Allows(o.today(s.readings))))
            && (forall i | n <= i < n + k - 1 :: o.reply(i) == Refusal(true))
            && (r.0.Some? <==> k > 0 && o.reply(n + k - 1).Answer?)
            && (r.0.Some? ==> o.reply(n + k - 1) == Answer(r.0.value)
                              && r.1.breakers[name].failures == 0 && r.1.breakers[name].openedAt.None?)
            && (r.0.None? && k > 0 ==> o.reply(n + k - 1) == Refusal(false) || k == cfg.maxRetries + 1)
            && r.1.guard == s.guard && r.1.rows == s.rows && s.readings <= r.1.readings
            && r.1.caps.Keys == s.caps.Keys && forall c | c in s.caps && c != name :: r.1.caps[c] == s.caps[c]
  {
    hide Attempts;
    assert Repeat(name, 0) == [] && s.attempts + [] == s.attempts;
    if name !in s.caps {
      k := RetryOutcome(cfg, o, name, s, 0);
    } else if !s.caps[name].Allows(o.today(s.readings)) {
      k := 0;
    } else {
      var consumed := s.(caps := s.caps[name := s.caps[name].Consume(o.today(s.readings))], readings := s.readings + 1);
      k := RetryOutcome(cfg, o, name, consumed, 0);
    }
  }

  /** A schema mismatch records a success and then a failure, so however often it
      repeats the failure run it leaves has length one. */
  lemma MismatchLeavesRunOfOne(cfg: Config, o: Oracle, name: string, s: ClientState)
    requires var r := CallProvider(cfg, o, name, s); r.0.Some? && !o.fits(r.0.value.payload)
    ensures var r := TryProvider(cfg, o, name, s);
            && r.0.None? && r.1.breakers[name].failures == 1
            && (r.1.breakers[name].openedAt.Some? <==> r.1.breakers[name].failThreshold <= 1)
  {
    hide CallProvider;
    var k := ProviderOutcome(cfg, o, name, s);
  }

  // ---------------------------------------------------------------- the chain

  // The state position i of the chain starts from, if every one before it fails.
  function StateAt(cfg: Config, o: Oracle, chain: seq<string>, s: ClientState, i: nat): ClientState
    requires i <= |chain|
  {
    if i == 0 then s else TryProvider(cfg, o, chain[i - 1], StateAt(cfg, o, chain, s, i - 1)).1
  }

  ghost predicate Acceptable(cfg: Config, o: Oracle, chain: seq<string>, s: ClientState, i: nat)
    requires i < |chain|
  {
    var r := CallProvider(cfg, o, chain[i], StateAt(cfg, o, chain, s, i)).0;
    r.Some? && o.fits(r.value.payload)
  }

  // The chain's answer is the first acceptable position from i on, with exactly
  // what that provider returned.
  ghost predicate ChainAnswer(cfg: Config, o: Oracle, chain: seq<string>, s: ClientState, i: nat,
      found: Option<Found>, after: ClientState) {
    if found.Some? then
      var p := found.value.position;
      && i <= p < |chain| && Acceptable(cfg, o, chain, s, p)
      && (forall j | i <= j < p :: !Acceptable(cfg, o, chain, s, j))
      && CallProvider(cfg, o, chain[p], StateAt(cfg, o, chain, s, p)) == (Some(found.value.result), after)
    else
      forall j | i <= j < |chain| :: !Acceptable(cfg, o, chain, s, j)
  }

  lemma {:induction false} ChainFrom(cfg: Config, o: Oracle, chain: seq<string>, s: ClientState, i: nat)
    requires i <= |chain|
    ensures var r := TryChain(cfg, o, chain, i, StateAt(cfg, o, chain, s, i));
            ChainAnswer(cfg, o, chain, s, i, r.0, r.1)
    decreases |chain| - i
  {
    hide CallProvider;
    if i < |chain| { ChainFrom(cfg, o, chain, s, i + 1); }
  }

  /** The chain returns the first provider in order that neither fails nor misses
      the schema, and nothing only if there is none. */
  lemma FirstAcceptableWins(cfg: Config, o: Oracle, chain: seq<string>, s: ClientState)
    ensures var r := TryChain(cfg, o, chain, 0, s);
            ChainAnswer(cfg, o, chain, s, 0, r.0, r.1)
  {
    hide CallProvider, TryChain, Acceptable;
    ChainFrom(cfg, o, chain, s, 0);
  }

  // What a stretch of the chain leaves alone, and how much it may try.
  ghost predicate WithinChain(cfg: Config, s: ClientState, s': ClientState, providers: nat) {
    && s'.guard == s.guard && s'.rows == s.rows && s.readings <= s'.readings
    && |s.attempts| <= |s'.attempts| <= |s.attempts| + providers * (cfg.maxRetries + 1)
  }

  lemma TryProviderWithin(cfg: Config, o: Oracle, name: string, s: ClientState)
    ensures WithinChain(cfg, s, TryProvider(cfg, o, name, s).1, 1)
  {
    hide CallProvider;
    var k := ProviderOutcome(cfg, o, name, s);
    RepeatLength(name, k);
  }

  lemma {:induction false} ChainWithin(cfg: Config, o: Oracle, chain: seq<string>, i: nat, s: ClientState)
    requires i <= |chain|
    ensures WithinChain(cfg, s, TryChain(cfg, o, chain, i, s).1, |chain| - i)
    decreases |chain| - i
  {
    hide TryProvider;
    if i < |chain| {
      TryProviderWithin(cfg, o, chain[i], s);
      ChainWithin(cfg, o, chain, i + 1, TryProvider(cfg, o, chain[i], s).1);
      assert (|chain| - i) * (cfg.maxRetries + 1) == (|chain| - i - 1) * (cfg.maxRetries + 1) + (cfg.maxRetries + 1);
    } else {
      assert 0 * (cfg.maxRetries + 1) == 0;
    }
  }

  // ----------------------------------------------------------------- one call

  /** Past the guards a call writes exactly one row: ok from the primary, fallback
      from a later position with that provider's own cost, a zero-cost error when
      all fail. It makes at most (1 + fallbacks) * (maxRetries + 1) attempts. */
  lemma OneRowPerCall(cfg: Config, o: Oracle, primary: string, fallbacks: seq<string>, t: Ticket, s: ClientState)
    ensures var r := Call(cfg, o, primary, fallbacks, t, true, false, s);
            && |r.1.attempts| <= |s.attempts| + (1 + |fallbacks|) * (cfg.maxRetries + 1)
            && (match r.0
                case Parsed(p, x) =>
                  && p <= |fallbacks| && o.fits(x.payload) && |r.1.rows| == |s.rows| + 1 && s.rows <= r.1.rows
                  && (var row := r.1.rows[|s.rows|];
                      row.ticket == t && row.cost == x.cost && row.model == x.model && row.usage == x.usage
                          && row.provider == x.provider
                      && row.status == (if p == 0 then CallOk else CallFallback))
                case AllFailed =>
                  && |r.1.rows| == |s.rows| + 1 && s.rows <= r.1.rows
                  && (var row := r.1.rows[|s.rows|];
                      row.ticket == t && row.cost == 0.0 && row.usage == NO_USAGE && row.model == t.specModel
                      && row.status == CallError && row.provider == primary)
                case BudgetExceeded => OverBudget(o, s) && r.1.rows == s.rows && r.1.attempts == s.attempts
                case ReidentifyRefused => false)
  {
    hide TryChain;
    var checked, chain := CheckGuard(o, s), [primary] + fallbacks;
    ChainWithin(cfg, o, chain, 0, checked);
    FirstAcceptableWins(cfg, o, chain, checked);
  }

  /** What a call does that may not answer: over the budget, or asked to put redacted
      text back, it asks no provider and writes no row; and without logging it writes
      none either, but decides and spends the same. */
  lemma RefusedAndUnlogged(cfg: Config, o: Oracle, primary: string, fallbacks: seq<string>, t: Ticket, logging: bool,
      s: ClientState)
    ensures var r := Call(cfg, o, primary, fallbacks, t, logging, true, s);
            && r.0 == (if OverBudget(o, s) then BudgetExceeded else ReidentifyRefused)
            && r.1.attempts == s.attempts && r.1.rows == s.rows && r.1.sleeps == s.sleeps
    ensures var logged := Call(cfg, o, primary, fallbacks, t, true, false, s);
            var silent := Call(cfg, o, primary, fallbacks, t, false, false, s);
            silent.0 == logged.0 && silent.1 == logged.1.(rows := s.rows)
  {
    hide TryChain;
    ChainWithin(cfg, o, [primary] + fallbacks, 0, CheckGuard(o, s));
  }

  /** A guard refuses exactly when the cost it holds for the day of the call, nothing if
      it last saw another day, has reached its cap. */
  lemma RefusedAtTheCap(o: Oracle, s: ClientState)
    ensures OverBudget(o, s) <==>
            && s.guard.Some? && s.guard.value.cap.Some?
            && (if s.guard.value.day == o.today(s.readings) then s.guard.value.spent
                else 0.0) >= s.guard.value.cap.value
  {
  }
}

/**
 How many attempts an entry makes, and how long a whole call sleeps: the exact
 conditions behind "one probe" and "three attempts", and the total delay.
 */
module LlmAttempts {
  import opened Wrappers
  import opened Reliability
  import opened LlmClient
  import opened LlmClientLaws

  // The next n replies are retryable refusals.
  ghost predicate RefusedAtFirst(o: Oracle, s: ClientState, n: nat) {
    forall i | |s.attempts| <= i < |s.attempts| + n :: o.reply(i) == Refusal(true)
  }

  function Made(cfg: Config, o: Oracle, name: string, s: ClientState): int {
    |CallProvider(cfg, o, name, s).1.attempts| - |s.attempts|
  }

  /** An entry makes more than n attempts exactly when it is let in, the retries
      allow them, and the first n replies are retryable refusals. */
  lemma MoreAttempts(cfg: Config, o: Oracle, name: string, s: ClientState, n: nat)
    requires n > 0
    ensures Made(cfg, o, name, s) > n <==> Enters(o, name, s) && n <= cfg.maxRetries && RefusedAtFirst(o, s, n)
  {
    hide CallProvider, Enters;
    var k := ProviderOutcome(cfg, o, name, s);
    RepeatLength(name, k);
    if RefusedAtFirst(o, s, n) && 0 < k <= n {
      assert o.reply(|s.attempts| + k - 1) == Refusal(true);
    }
  }

  /** A half-open entry is a single probe exactly when nothing may be retried or the
      probe is not refused in a retryable way. */
  lemma HalfOpenProbesOnce(cfg: Config, o: Oracle, name: string, s: ClientState)
    requires name in s.breakers && s.breakers[name].openedAt.Some? && Enters(o, name, s)
    ensures Made(cfg, o, name, s) == 1 <==> cfg.maxRetries == 0 || o.reply(|s.attempts|) != Refusal(true)
  {
    hide CallProvider, Enters;
    var k := ProviderOutcome(cfg, o, name, s);
    RepeatLength(name, k);
    MoreAttempts(cfg, o, name, s, 1);
    assert RefusedAtFirst(o, s, 1) <==> o.reply(|s.attempts|) == Refusal(true);
  }

  const DEFAULT_RETRIES := Config(3, 1.0, 30.0)

  // Every attempt is refused in a retryable way, and every clock reads the same.
  const ALWAYS_BUSY := Oracle(n => Refusal(true), n => 100.0, n => 0, n => 0.0, n => false)

  /** The input that shows both: with three retries an entry made long after the
      breaker opened makes four attempts. */
  lemma HalfOpenMakesFour(name: string)
    ensures var s := ClientState(map[name := BreakerState(5, 60.0, 5, Some(0.0))], map[], None, [], 0, [], []);
            && Enters(ALWAYS_BUSY, name, s)
            && CallProvider(DEFAULT_RETRIES, ALWAYS_BUSY, name, s).1.attempts == [name, name, name, name]
  {
    var s := ClientState(map[name := BreakerState(5, 60.0, 5, Some(0.0))], map[], None, [], 0, [], []);
    assert Enters(ALWAYS_BUSY, name, s);
    hide CallProvider;
    MoreAttempts(DEFAULT_RETRIES, ALWAYS_BUSY, name, s, 3);
    var k := ProviderOutcome(DEFAULT_RETRIES, ALWAYS_BUSY, name, s);
    RepeatLength(name, k);
    FourOf(name);
  }

  lemma FourOf(name: string)
    ensures Repeat(name, 4) == [name, name, name, name]
  {
    assert Repeat(name, 2) == [name] + Repeat(name, 1) && Repeat(name, 1) == [name] + Repeat(name, 0);
    assert Repeat(name, 4) == [name] + Repeat(name, 3) && Repeat(name, 3) == [name] + Repeat(name, 2);
  }

  // ------------------------------------------------------------------- sleeping

  // The i-th delay is the share drawn for it of a bound: the base doubled i times, or
  // the maximum, whichever is smaller.
  predicate IsDelay(cfg: Config, delay: real, share: real, i: nat) {
    var doubled := cfg.baseBackoff * (TwoTo(i) as real);
    (doubled <= cfg.maxBackoff ==> delay == share * doubled)
        && (doubled > cfg.maxBackoff ==> delay == share * cfg.maxBackoff)
  }

  lemma BackoffIsDelay(cfg: Config, i: nat, share: real)
    ensures IsDelay(cfg, Backoff(cfg, i, share), share, i)
  {
    hide TwoTo, Power2, BackoffBound;
    BoundIsLongest(cfg, i);
    assert Backoff(cfg, i, share) == share * LongestDelay(cfg, i);
  }

  // The delays of a loop from `attempt` on, one fewer than its attempts. Each attempt
  // reads the clock for the breaker and then draws.
  ghost predicate Delays(cfg: Config, o: Oracle, s: ClientState, s': ClientState, attempt: nat) {
    && s.sleeps <= s'.sleeps && |s.attempts| < |s'.attempts|
    && |s'.sleeps| - |s.sleeps| == |s'.attempts| - |s.attempts| - 1
    && forall i: nat | i < |s'.sleeps| - |s.sleeps| ::
         IsDelay(cfg, s'.sleeps[|s.sleeps| + i], o.jitter(s.readings + 2 * i + 1), attempt + i)
  }

  lemma {:induction false} AttemptDelays(cfg: Config, o: Oracle, name: string, s: ClientState, attempt: nat)
    requires name in s.breakers && attempt <= cfg.maxRetries
    ensures Delays(cfg, o, s, Attempts(cfg, o, name, s, attempt).1, attempt)
    decreases cfg.maxRetries - attempt
  {
    if o.reply(|s.attempts|) == Refusal(true) && attempt < cfg.maxRetries {
      var slept := Slept(cfg, o, name, s, attempt);
      RetryGoesOn(cfg, o, name, s, attempt);
      SleptOnce(cfg, o, name, s, attempt);
      hide Attempts, Slept, Delays, Backoff, FailBreaker;
      AttemptDelays(cfg, o, name, slept, attempt + 1);
      DelaysGoOn(cfg, o, s, slept, Attempts(cfg, o, name, slept, attempt + 1).1, attempt);
    } else {
      hide IsDelay;
      LastTrySleepsNot(cfg, o, name, s, attempt);
    }
  }

  lemma SleptOnce(cfg: Config, o: Oracle, name: string, s: ClientState, attempt: nat)
    requires name in s.breakers
    ensures var slept := Slept(cfg, o, name, s, attempt);
            && |slept.attempts| == |s.attempts| + 1 && slept.readings == s.readings + 2
            && slept.sleeps == s.sleeps + [Backoff(cfg, attempt, o.jitter(s.readings + 1))]
  {
    hide Backoff;
  }

  lemma DelaysGoOn(cfg: Config, o: Oracle, s: ClientState, slept: ClientState, r: ClientState, attempt: nat)
    requires |slept.attempts| == |s.attempts| + 1 && slept.readings == s.readings + 2
    requires slept.sleeps == s.sleeps + [Backoff(cfg, attempt, o.jitter(s.readings + 1))]
    requires Delays(cfg, o, slept, r, attempt + 1)
    ensures Delays(cfg, o, s, r, attempt)
  {
    hide IsDelay, Backoff;
    BackoffIsDelay(cfg, attempt, o.jitter(s.readings + 1));
    forall i: nat | i < |r.sleeps| - |s.sleeps|
      ensures IsDelay(cfg, r.sleeps[|s.sleeps| + i], o.jitter(s.readings + 2 * i + 1), attempt + i)
    {
      if i == 0 {
        assert r.sleeps[|s.sleeps|] == slept.sleeps[|s.sleeps|];
      } else {
        var k: nat := i - 1;
        assert IsDelay(cfg, r.sleeps[|slept.sleeps| + k], o.jitter(slept.readings + 2 * k + 1), attempt + 1 + k);
      }
    }
  }

  /** Every delay of an entry: between two attempts, and only there, the client sleeps a
      drawn share of min(base * 2^i, max) for the i-th. The readings before the loop are
      the breaker's and, for a capped provider, the cap's. */
  lemma EntryDelays(cfg: Config, o: Oracle, name: string, s: ClientState)
    ensures var r := CallProvider(cfg, o, name, s).1;
            var slept := |r.sleeps| - |s.sleeps|;
            && s.sleeps <= r.sleeps
            && slept == (if Made(cfg, o, name, s) == 0 then 0 else Made(cfg, o, name, s) - 1)
            && forall i: nat | i < slept ::
                 IsDelay(cfg, r.sleeps[|s.sleeps| + i],
                         o.jitter(s.readings + (if name in s.caps then 2 else 1) + 2 * i + 1), i)
  {
    hide Attempts, IsDelay;
    var checked := WithBreaker(s, name).(readings := s.readings + 1);
    if name !in s.caps {
      AttemptDelays(cfg, o, name, checked, 0);
    } else {
      var cap := checked.caps[name].Consume(o.today(checked.readings));
      AttemptDelays(cfg, o, name, checked.(caps := checked.caps[name := cap], readings := checked.readings + 1), 0);
    }
  }


  lemma {:induction false} SumJoins(a: seq<real>, b: seq<real>)
    ensures Sum(a + b) == Sum(a) + Sum(b)
  {
    if a == [] {
      assert a + b == b;
    } else {
      assert (a + b)[1..] == a[1..] + b;
      SumJoins(a[1..], b);
    }
  }

  // What was slept from s to s' stays within a bound.
  ghost predicate SleptAtMost(s: ClientState, s': ClientState, most: real) {
    s.sleeps <= s'.sleeps && Sum(s'.sleeps[|s.sleeps|..]) <= most
  }

  lemma SleepsAdd(a: ClientState, b: ClientState, c: ClientState, x: real, y: real)
    requires SleptAtMost(a, b, x) && SleptAtMost(b, c, y)
    ensures SleptAtMost(a, c, x + y)
  {
    hide Sum;
    var first, second := b.sleeps[|a.sleeps|..], c.sleeps[|b.sleeps|..];
    assert c.sleeps[|a.sleeps|..] == first + second;
    SumJoins(first, second);
  }

  lemma NoSleep(s: ClientState, s': ClientState)
    requires s'.sleeps == s.sleeps
    ensures SleptAtMost(s, s', 0.0)
  {
    assert s'.sleeps[|s.sleeps|..] == [];
  }

  // All retries of one provider.
  function ProviderSleep(cfg: Config): real {
    SleepBudget(cfg, 0, cfg.maxRetries)
  }

  lemma ProviderSleeps(cfg: Config, o: Oracle, name: string, s: ClientState)
    requires o.Lawful() && cfg.baseBackoff >= 0.0 && cfg.maxBackoff >= 0.0
    ensures SleptAtMost(s, TryProvider(cfg, o, name, s).1, ProviderSleep(cfg))
  {
    hide Attempts, Sum, SleepBudget;
    BudgetNonNegative(cfg, 0, cfg.maxRetries);
    var checked := WithBreaker(s, name).(readings := s.readings + 1);
    var r := TryProvider(cfg, o, name, s).1;
    if WithBreaker(s, name).breakers[name].Cooling(o.clock(s.readings)) {
      NoSleep(s, r);
    } else if name !in s.caps {
      SleepsWithinBudget(cfg, o, name, checked, 0);
    } else if !s.caps[name].Allows(o.today(checked.readings)) {
      NoSleep(s, r);
    } else {
      var cap := checked.caps[name].Consume(o.today(checked.readings));
      SleepsWithinBudget(cfg, o, name, checked.(caps := checked.caps[name := cap], readings := checked.readings + 1),
                         0);
    }
  }

  // n providers, one after the other.
  function ChainSleep(cfg: Config, n: nat): real {
    if n == 0 then 0.0 else ProviderSleep(cfg) + ChainSleep(cfg, n - 1)
  }

  lemma {:induction false} ChainSleepIsProduct(cfg: Config, n: nat)
    ensures ChainSleep(cfg, n) == n as real * ProviderSleep(cfg)
  {
    hide ProviderSleep;
    if n > 0 { ChainSleepIsProduct(cfg, n - 1); }
  }

  lemma {:induction false} ChainSleeps(cfg: Config, o: Oracle, chain: seq<string>, i: nat, s: ClientState)
    requires i <= |chain| && o.Lawful() && cfg.baseBackoff >= 0.0 && cfg.maxBackoff >= 0.0
    ensures SleptAtMost(s, TryChain(cfg, o, chain, i, s).1, ChainSleep(cfg, |chain| - i))
    decreases |chain| - i
  {
    hide TryProvider, ProviderSleep, SleptAtMost;
    if i == |chain| {
      NoSleep(s, s);
    } else {
      var r := TryProvider(cfg, o, chain[i], s);
      var after := TryChain(cfg, o, chain, i + 1, r.1).1;
      ProviderSleeps(cfg, o, chain[i], s);
      ChainSleeps(cfg, o, chain, i + 1, r.1);
      SleepsAdd(s, r.1, after, ProviderSleep(cfg), ChainSleep(cfg, |chain| - i - 1));
      if r.0.Some? {
        ChainSleepNonNegative(cfg, |chain| - i - 1);
        Loosen(s, r.1, ProviderSleep(cfg), ChainSleep(cfg, |chain| - i));
      }
    }
  }

  lemma Loosen(s: ClientState, s': ClientState, x: real, y: real)
    requires SleptAtMost(s, s', x) && x <= y
    ensures SleptAtMost(s, s', y)
  {
  }

  lemma {:induction false} ChainSleepNonNegative(cfg: Config, n: nat)
    requires cfg.baseBackoff >= 0.0 && cfg.maxBackoff >= 0.0
    ensures ChainSleep(cfg, n) >= 0.0
  {
    hide SleepBudget;
    BudgetNonNegative(cfg, 0, cfg.maxRetries);
    if n > 0 { ChainSleepNonNegative(cfg, n - 1); }
  }

  /** A whole call sleeps at most (1 + fallbacks) times what one provider's retries
      may: the sum of min(base * 2^i, max) over them. */
  lemma CallSleepsWithinBudget(cfg: Config, o: Oracle, primary: string, fallbacks: seq<string>, t: Ticket,
      logging: bool, reidentify: bool, s: ClientState)
    requires o.Lawful() && cfg.baseBackoff >= 0.0 && cfg.maxBackoff >= 0.0
    ensures var r := Call(cfg, o, primary, fallbacks, t, logging, reidentify, s).1;
            SleptAtMost(s, r, (1 + |fallbacks|) as real * SleepBudget(cfg, 0, cfg.maxRetries))
  {
    hide TryChain, SleptAtMost, SleepBudget, ChainSleep;
    var chain, checked := [primary] + fallbacks, CheckGuard(o, s);
    var budget := (1 + |fallbacks|) as real * SleepBudget(cfg, 0, cfg.maxRetries);
    ChainSleepIsProduct(cfg, |chain|);
    ChainSleepNonNegative(cfg, |chain|);
    assert ChainSleep(cfg, |chain|) == budget;
    var tried := TryChain(cfg, o, chain, 0, checked).1;
    ChainSleeps(cfg, o, chain, 0, checked);
    var r := Call(cfg, o, primary, fallbacks, t, logging, reidentify, s).1;
    assert r.sleeps == s.sleeps || r.sleeps == tried.sleeps;
    if r.sleeps == s.sleeps {
      NoSleep(s, r);
      Loosen(s, r, 0.0, budget);
    } else {
      SameSleeps(checked, tried, s, r, budget);
    }
  }

  lemma SameSleeps(a: ClientState, b: ClientState, s: ClientState, s': ClientState, most: real)
    requires SleptAtMost(a, b, most) && a.sleeps == s.sleeps && b.sleeps == s'.sleeps
    ensures SleptAtMost(s, s', most)
  {
  }
}

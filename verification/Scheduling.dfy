/**
 The slot predicate behind the scheduled fan-out and the "next run" preview.

 Instants are microseconds since an epoch at midnight UTC; a local wall-clock
 reading is the same count shifted by the zone's offset, so a local day is a
 multiple of DAY.
 */
module Scheduling {
  import opened Wrappers

  const SECOND := 1_000_000
  const MINUTE := 60 * SECOND
  const HOUR := 60 * MINUTE
  const DAY := 24 * HOUR

  const SLOT_HALF_WINDOW := 7 * MINUTE + 30 * SECOND
  const LAST_RUN_DEBOUNCE := HOUR
  const LOCK_STALE_AFTER := 30 * MINUTE
  const TICK := 15 * MINUTE

  // A zone is its offset at a UTC instant, and the offset it applies to a local
  // reading (which picks the earlier one where a reading occurs twice).
  datatype Zone = Zone(atUtc: int -> int, atLocal: int -> int)

  const UTC: Zone := Zone(_ => 0, _ => 0)

  datatype View = View(
    frequency: string,
    timesLocal: seq<string>,
    timezone: string,
    lastRunFinishedAt: Option<int>,
    currentRunId: Option<string>,
    currentRunStartedAt: Option<int>)

  // ------------------------------------------------------------- slot parsing

  predicate IsSpace(c: char) { c == ' ' || '\t' <= c <= '\r' || '\U{1c}' <= c <= '\U{1f}' }

  predicate IsDigit(c: char) { '0' <= c <= '9' }

  function StripLeft(s: string): string {
    if s != "" && IsSpace(s[0]) then StripLeft(s[1..]) else s
  }

  function StripRight(s: string): string {
    if s != "" && IsSpace(s[|s| - 1]) then StripRight(s[..|s| - 1]) else s
  }

  // Digits, with single underscores allowed between two of them.
  function Digits(s: string): Option<nat> {
    if s == "" || !IsDigit(s[|s| - 1]) then None
    else
      var d := (s[|s| - 1] - '0') as nat;
      if |s| == 1 then Some(d)
      else
        var front := if s[|s| - 2] == '_' then s[..|s| - 2] else s[..|s| - 1];
        match Digits(front)
        case Some(n) => Some(10 * n + d)
        case None => None
  }

  // Python's int() on ASCII text.
  function ParseInt(s: string): Option<int> {
    var t := StripRight(StripLeft(s));
    var signed := t != "" && (t[0] == '-' || t[0] == '+');
    var n := Digits(if signed then t[1..] else t);
    if n.None? then None
    else
      var v: int := n.value;
      Some(if signed && t[0] == '-' then -v else v)
  }

  function Split(s: string, sep: char): seq<string> {
    if s == "" then [""]
    else if s[0] == sep then [""] + Split(s[1..], sep)
    else
      var rest := Split(s[1..], sep);
      if rest == [] then [[s[0]]] else [[s[0]] + rest[0]] + rest[1..]
  }

  // The slot's minute of the day; None for a malformed slot.
  function ParseSlot(value: string): (m: Option<int>)
    ensures m.Some? ==> 0 <= m.value < 24 * 60
  {
    var parts := Split(value, ':');
    if |parts| != 2 then None
    else
      var hour, minute := ParseInt(parts[0]), ParseInt(parts[1]);
      if hour.None? || minute.None? then None
      else if !(0 <= hour.value <= 23) || !(0 <= minute.value <= 59) then None
      else Some(60 * hour.value + minute.value)
  }

  function TwoDigits(n: nat): string
    requires n < 100
  {
    [(n / 10) as char + '0', (n % 10) as char + '0']
  }

  function FormatSlot(hour: nat, minute: nat): string
    requires hour < 24 && minute < 60
  {
    TwoDigits(hour) + ":" + TwoDigits(minute)
  }

  lemma ParseTwoDigits(n: nat)
    requires n < 100
    ensures ParseInt(TwoDigits(n)) == Some(n)
  {
    var s := TwoDigits(n);
    assert IsDigit(s[0]) && IsDigit(s[1]);
    assert StripRight(StripLeft(s)) == s;
    assert s[..1] == [s[0]];
    assert Digits(s[..1]) == Some(n / 10);
  }

  lemma {:induction false} SplitFirst(a: string, sep: char, b: string)
    requires sep !in a
    ensures Split(a, sep) == [a]
    ensures Split(a + [sep] + b, sep) == [a] + Split(b, sep)
  {
    var whole := a + [sep] + b;
    if a == "" {
      assert whole[1..] == b;
    } else {
      SplitFirst(a[1..], sep, b);
      assert whole[1..] == a[1..] + [sep] + b;
      assert [a[0]] + a[1..] == a;
    }
  }

  /** Every well-formed HH:MM is read back as its hour and minute. */
  lemma ParseFormatted(hour: nat, minute: nat)
    requires hour < 24 && minute < 60
    ensures ParseSlot(FormatSlot(hour, minute)) == Some(60 * hour + minute)
  {
    ParseTwoDigits(hour);
    ParseTwoDigits(minute);
    SplitFirst(TwoDigits(minute), ':', "");
    SplitFirst(TwoDigits(hour), ':', TwoDigits(minute));
  }

  // ------------------------------------------------------------ slot instants

  // Opening the zone database; an unknown name falls back to UTC.
  function ResolveZone(zones: string -> Option<Zone>, name: string): Zone {
    match zones(name)
    case Some(z) => z
    case None => UTC
  }

  function LocalDay(zone: Zone, now: int): int {
    (now + zone.atUtc(now)) / DAY
  }

  // The UTC instant of a minute of the day on a local day.
  function SlotInstant(zone: Zone, day: int, minute: int): int {
    var local := day * DAY + minute * MINUTE;
    local - zone.atLocal(local)
  }

  // All slots of one local day, in profile order.
  function DaySlots(zone: Zone, day: int, times: seq<string>): seq<int> {
    if times == [] then []
    else
      DaySlots(zone, day, times[..|times| - 1])
      + (match ParseSlot(times[|times| - 1])
         case Some(m) => [SlotInstant(zone, day, m)]
         case None => [])
  }

  // The slots of `n` local days from `first` on, in order.
  function DaysSlots(zone: Zone, first: int, n: nat, times: seq<string>): seq<int> {
    if n == 0 then [] else DaysSlots(zone, first, n - 1, times) + DaySlots(zone, first + n - 1, times)
  }

  function CandidateSlots(zone: Zone, now: int, times: seq<string>): seq<int> {
    DaysSlots(zone, LocalDay(zone, now) - 1, 3, times)
  }

  // The projection as it is computed: a list filled day by day, slot by slot.
  method CandidateUtcSlots(zone: Zone, now: int, times: seq<string>) returns (candidates: seq<int>)
    ensures candidates == CandidateSlots(zone, now, times)
  {
    hide ParseSlot, SlotInstant;
    candidates := [];
    var first := LocalDay(zone, now) - 1;
    for k := 0 to 3
      invariant candidates == DaysSlots(zone, first, k, times)
    {
      ghost var before := candidates;
      for i := 0 to |times|
        invariant candidates == before + DaySlots(zone, first + k, times[..i])
      {
        assert times[..i + 1][..i] == times[..i];
        var parsed := ParseSlot(times[i]);
        if parsed.Some? { candidates := candidates + [SlotInstant(zone, first + k, parsed.value)]; }
      }
      assert times[..|times|] == times;
    }
  }

  function Abs(x: int): int { if x < 0 then -x else x }

  // Some slot of the profile, on any local day at all, is at this instant.
  ghost predicate IsSlot(zone: Zone, times: seq<string>, c: int) {
    exists day, i :: SlotOn(zone, times, day, i, c)
  }

  // Slot i read on a local day, at the offset the zone gives that reading.
  ghost predicate SlotOn(zone: Zone, times: seq<string>, day: int, i: int, c: int) {
    && 0 <= i < |times| && ParseSlot(times[i]).Some?
    && var local := 86_400_000_000 * day + 60_000_000 * ParseSlot(times[i]).value;
       c == local - zone.atLocal(local)
  }

  lemma SlotOnIsInstant(zone: Zone, times: seq<string>, day: int, i: int, c: int)
    ensures SlotOn(zone, times, day, i, c) <==>
            0 <= i < |times| && ParseSlot(times[i]).Some? && c == SlotInstant(zone, day, ParseSlot(times[i]).value)
  {
    hide ParseSlot;
  }

  lemma {:induction false} DaySlotsMembers(zone: Zone, day: int, times: seq<string>, c: int)
    ensures c in DaySlots(zone, day, times) <==> exists i :: SlotOn(zone, times, day, i, c)
  {
    hide ParseSlot, SlotInstant;
    if times != [] {
      var n := |times| - 1;
      DaySlotsMembers(zone, day, times[..n], c);
      if i :| SlotOn(zone, times, day, i, c) {
        if i < n { assert SlotOn(zone, times[..n], day, i, c); }
      }
      if i :| SlotOn(zone, times[..n], day, i, c) { assert SlotOn(zone, times, day, i, c); }
      SlotOnIsInstant(zone, times, day, n, c);
      if ParseSlot(times[n]).Some? && c == SlotInstant(zone, day, ParseSlot(times[n]).value) {
        assert SlotOn(zone, times, day, n, c);
      }
    }
  }

  lemma {:induction false} DaysSlotsMembers(zone: Zone, first: int, n: nat, times: seq<string>, c: int)
    ensures c in DaysSlots(zone, first, n, times) <==>
            exists day, i :: first <= day < first + n && SlotOn(zone, times, day, i, c)
  {
    hide SlotOn, DaySlots;
    if n > 0 {
      DaysSlotsMembers(zone, first, n - 1, times, c);
      DaySlotsMembers(zone, first + n - 1, times, c);
      if day, i :| first <= day < first + n && SlotOn(zone, times, day, i, c) {
        assert day == first + n - 1 || day < first + (n - 1);
      }
    }
  }

  lemma CandidateMembers(zone: Zone, now: int, times: seq<string>, c: int)
    ensures c in CandidateSlots(zone, now, times) <==>
            exists day, i :: LocalDay(zone, now) - 1 <= day <= LocalDay(zone, now) + 1 && SlotOn(zone, times, day, i, c)
  {
    hide SlotOn, DaysSlots;
    var first := LocalDay(zone, now) - 1;
    DaysSlotsMembers(zone, first, 3, times, c);
    if day, i :| first <= day < first + 3 && SlotOn(zone, times, day, i, c) {
      assert day <= LocalDay(zone, now) + 1;
    }
    if day, i :| first <= day <= first + 2 && SlotOn(zone, times, day, i, c) {
      assert day < first + 3;
    }
  }

  // Around `now` the offset stays within `spread` of the one at `now`: only readings
  // whose own instant lies in the window matter.
  ghost predicate Steady(zone: Zone, now: int, spread: int) {
    forall local :: -450_000_000 <= local - zone.atLocal(local) - now <= 450_000_000 ==>
      -spread <= zone.atLocal(local) - zone.atUtc(now) <= spread
  }

  // The largest spread for which three local days are enough.
  const MAX_SPREAD := 86_400_000_000 - 450_000_000

  lemma NearSlotIsClose(zone: Zone, now: int, day: int, minute: int)
    requires Steady(zone, now, MAX_SPREAD) && 0 <= minute < 24 * 60
    requires Abs(SlotInstant(zone, day, minute) - now) <= SLOT_HALF_WINDOW
    ensures LocalDay(zone, now) - 1 <= day <= LocalDay(zone, now) + 1
  {
    hide ParseSlot;
    var local := day * DAY + minute * MINUTE;
    var nowLocal := now + zone.atUtc(now);
    assert Abs(zone.atLocal(local) - zone.atUtc(now)) <= MAX_SPREAD;
    assert Abs(local - nowLocal) <= DAY;
    var today := nowLocal / DAY;
    assert today * DAY <= nowLocal < today * DAY + DAY;
  }

  lemma CandidateIsSlot(zone: Zone, now: int, times: seq<string>, c: int)
    requires c in CandidateSlots(zone, now, times)
    ensures IsSlot(zone, times, c)
  {
    hide ParseSlot, SlotInstant, CandidateSlots;
    CandidateMembers(zone, now, times, c);
  }

  /** The test over three local days is the test over all days. */
  lemma ThreeDaysSuffice(zone: Zone, now: int, times: seq<string>)
    requires Steady(zone, now, MAX_SPREAD)
    ensures (exists c :: c in CandidateSlots(zone, now, times) && Abs(c - now) <= SLOT_HALF_WINDOW) <==>
            (exists c :: IsSlot(zone, times, c) && Abs(c - now) <= SLOT_HALF_WINDOW)
    ensures forall c ::
        IsSlot(zone, times, c) && Abs(c - now) <= SLOT_HALF_WINDOW ==> c in CandidateSlots(zone, now, times)
  {
    hide ParseSlot, SlotInstant, CandidateSlots;
    forall c | IsSlot(zone, times, c) && Abs(c - now) <= SLOT_HALF_WINDOW
      ensures c in CandidateSlots(zone, now, times)
    {
      var day, i :| SlotOn(zone, times, day, i, c);
      SlotOnIsInstant(zone, times, day, i, c);
      NearSlotIsClose(zone, now, day, ParseSlot(times[i]).value);
      CandidateMembers(zone, now, times, c);
    }
    forall c | c in CandidateSlots(zone, now, times) ensures IsSlot(zone, times, c) {
      CandidateIsSlot(zone, now, times, c);
    }
  }

  lemma MidnightParses()
    ensures ParseSlot("00:00") == Some(0)
  {
    hide ParseSlot;
    ParseFormatted(0, 0);
    assert FormatSlot(0, 0) == "00:00";
  }

  /** One microsecond more of spread and a slot can be missed. */
  lemma SpreadBoundIsTight() returns (zone: Zone, now: int, c: int)
    ensures Steady(zone, now, MAX_SPREAD + 1)
    ensures IsSlot(zone, ["00:00"], c) && Abs(c - now) <= SLOT_HALF_WINDOW
    ensures c !in CandidateSlots(zone, now, ["00:00"])
  {
    hide ParseSlot, CandidateSlots;
    zone, now := Zone(_ => 0, _ => MAX_SPREAD + 1), DAY - 1;
    MidnightParses();
    c := SlotInstant(zone, 2, 0);
    assert SlotOn(zone, ["00:00"], 2, 0, c);
    CandidateMembers(zone, now, ["00:00"], c);
  }

  // ------------------------------------------------------------------- is_due

  predicate Debounced(now: int, view: View) {
    view.lastRunFinishedAt.Some? && now - view.lastRunFinishedAt.value < LAST_RUN_DEBOUNCE
  }

  // A lock without a start time never goes stale.
  predicate Locked(now: int, view: View) {
    view.currentRunId.Some?
    && (view.currentRunStartedAt.None? || now - view.currentRunStartedAt.value < LOCK_STALE_AFTER)
  }

  predicate IsDue(zones: string -> Option<Zone>, now: int, view: View) {
    if view.frequency == "disabled" then false
    else if Debounced(now, view) then false
    else if Locked(now, view) then false
    else
      var candidates := CandidateSlots(ResolveZone(zones, view.timezone), now, view.timesLocal);
      exists c | c in candidates :: Abs(c - now) <= SLOT_HALF_WINDOW
  }

  // The zone of a name, and for an unknown name one that is UTC everywhere.
  ghost predicate ZoneOf(zones: string -> Option<Zone>, name: string, zone: Zone) {
    match zones(name)
    case Some(z) => zone == z
    case None => forall x :: zone.atUtc(x) == 0 && zone.atLocal(x) == 0
  }

  lemma SameSlots(zones: string -> Option<Zone>, name: string, zone: Zone, times: seq<string>)
    requires ZoneOf(zones, name, zone)
    ensures var z := ResolveZone(zones, name);
            && (forall x :: z.atUtc(x) == zone.atUtc(x) && z.atLocal(x) == zone.atLocal(x))
            && forall c :: IsSlot(z, times, c) <==> IsSlot(zone, times, c)
  {
    hide ParseSlot;
    var z := ResolveZone(zones, name);
    forall c, day, i ensures SlotOn(z, times, day, i, c) <==> SlotOn(zone, times, day, i, c) {}
    forall c ensures IsSlot(z, times, c) <==> IsSlot(zone, times, c) {
      if day, i :| SlotOn(z, times, day, i, c) { assert SlotOn(zone, times, day, i, c); }
      if day, i :| SlotOn(zone, times, day, i, c) { assert SlotOn(z, times, day, i, c); }
    }
  }

  // A run finished less than an hour ago.
  predicate JustRan(now: int, view: View) {
    view.lastRunFinishedAt.Some? && now - view.lastRunFinishedAt.value < 3_600_000_000
  }

  // A run holds the lock and did not start half an hour ago or earlier.
  predicate RunsNow(now: int, view: View) {
    && view.currentRunId.Some?
    && (view.currentRunStartedAt.Some? ==> now - view.currentRunStartedAt.value < 1_800_000_000)
  }

  /** A user is due exactly when the schedule is on, no run finished within the hour, no
      run holds a lock that is not stale, and some slot of any day lies within seven and
      a half minutes. */
  lemma DueMeansSlotNearby(zones: string -> Option<Zone>, now: int, view: View, zone: Zone)
    requires ZoneOf(zones, view.timezone, zone) && Steady(zone, now, MAX_SPREAD)
    ensures IsDue(zones, now, view) <==>
            && view.frequency != "disabled" && !JustRan(now, view) && !RunsNow(now, view)
            && exists c :: IsSlot(zone, view.timesLocal, c) && -450_000_000 <= c - now <= 450_000_000
  {
    hide IsSlot, CandidateSlots;
    SameSlots(zones, view.timezone, zone, view.timesLocal);
    ThreeDaysSuffice(ResolveZone(zones, view.timezone), now, view.timesLocal);
  }

  // ----------------------------------------------------------------- next slot

  function After(cs: seq<int>, now: int): seq<int> {
    if cs == [] then []
    else After(cs[..|cs| - 1], now) + (if cs[|cs| - 1] > now then [cs[|cs| - 1]] else [])
  }

  lemma {:induction false} AfterMembers(cs: seq<int>, now: int, c: int)
    ensures c in After(cs, now) <==> c in cs && c > now
  {
    if cs != [] {
      AfterMembers(cs[..|cs| - 1], now, c);
      assert cs == cs[..|cs| - 1] + [cs[|cs| - 1]];
    }
  }

  lemma {:induction false} AfterConcat(a: seq<int>, b: seq<int>, now: int)
    ensures After(a + b, now) == After(a, now) + After(b, now)
    ensures |b| == 1 ==> After(b, now) == if b[0] > now then b else []
  {
    if b == [] {
      assert a + b == a;
    } else {
      AfterConcat(a, b[..|b| - 1], now);
      assert (a + b)[..|a + b| - 1] == a + b[..|b| - 1];
    }
  }

  lemma AfterNothing(now: int)
    ensures After([], now) == []
  {
  }

  ghost predicate Upcoming(zone: Zone, now: int, times: seq<string>, c: int) {
    c > now && exists day, i :: WithinThreeDays(zone, now, day) && SlotOn(zone, times, day, i, c)
  }

  // The local day of the instant, or one of the two that follow.
  predicate WithinThreeDays(zone: Zone, now: int, day: int) {
    (day - 2) * 86_400_000_000 <= now + zone.atUtc(now) < (day + 1) * 86_400_000_000
  }

  lemma ThreeDaysFromToday(zone: Zone, now: int, day: int)
    ensures WithinThreeDays(zone, now, day) <==> LocalDay(zone, now) <= day < LocalDay(zone, now) + 3
  {
    var today, nowLocal := LocalDay(zone, now), now + zone.atUtc(now);
    assert today * DAY <= nowLocal < today * DAY + DAY;
  }

  lemma UpcomingMembers(zone: Zone, now: int, times: seq<string>, c: int)
    ensures c in After(DaysSlots(zone, LocalDay(zone, now), 3, times), now) <==> Upcoming(zone, now, times, c)
  {
    hide SlotOn, DaysSlots, After, WithinThreeDays, LocalDay;
    forall day ensures WithinThreeDays(zone, now, day) <==> LocalDay(zone, now) <= day < LocalDay(zone, now) + 3 {
      ThreeDaysFromToday(zone, now, day);
    }
    DaysSlotsMembers(zone, LocalDay(zone, now), 3, times, c);
    AfterMembers(DaysSlots(zone, LocalDay(zone, now), 3, times), now, c);
  }

  method AppendUpcoming(upcoming: seq<int>, zone: Zone, day: int, times: seq<string>, now: int)
      returns (longer: seq<int>)
    ensures longer == upcoming + After(DaySlots(zone, day, times), now)
  {
    hide ParseSlot, SlotInstant, After;
    longer := upcoming;
    AfterNothing(now);
    for i := 0 to |times|
      invariant longer == upcoming + After(DaySlots(zone, day, times[..i]), now)
    {
      assert times[..i + 1][..i] == times[..i];
      var parsed := ParseSlot(times[i]);
      var slots := if parsed.Some? then [SlotInstant(zone, day, parsed.value)] else [];
      assert DaySlots(zone, day, times[..i + 1]) == DaySlots(zone, day, times[..i]) + slots;
      AfterConcat(DaySlots(zone, day, times[..i]), slots, now);
      if parsed.Some? && slots[0] > now { longer := longer + slots; }
    }
    assert times[..|times|] == times;
  }

  method UpcomingSlots(zone: Zone, now: int, times: seq<string>) returns (upcoming: seq<int>)
    ensures upcoming == After(DaysSlots(zone, LocalDay(zone, now), 3, times), now)
  {
    hide DaySlots, After;
    upcoming := [];
    AfterNothing(now);
    var today := LocalDay(zone, now);
    for k := 0 to 3
      invariant upcoming == After(DaysSlots(zone, today, k, times), now)
    {
      upcoming := AppendUpcoming(upcoming, zone, today + k, times, now);
      AfterConcat(DaysSlots(zone, today, k, times), DaySlots(zone, today + k, times), now);
    }
  }

  lemma SameUpcoming(zones: string -> Option<Zone>, name: string, now: int, times: seq<string>)
    ensures forall zone, c | ZoneOf(zones, name, zone) ::
              Upcoming(zone, now, times, c) <==> Upcoming(ResolveZone(zones, name), now, times, c)
  {
    hide ParseSlot;
    var z := ResolveZone(zones, name);
    forall zone, c | ZoneOf(zones, name, zone) ensures Upcoming(zone, now, times, c) <==> Upcoming(z, now, times, c) {
      SameSlots(zones, name, zone, times);
      forall day, i ensures SlotOn(z, times, day, i, c) <==> SlotOn(zone, times, day, i, c) {}
      if day, i :| WithinThreeDays(zone, now, day) && SlotOn(zone, times, day, i, c) {
        assert WithinThreeDays(z, now, day) && SlotOn(z, times, day, i, c);
      }
      if day, i :| WithinThreeDays(z, now, day) && SlotOn(z, times, day, i, c) {
        assert WithinThreeDays(zone, now, day) && SlotOn(zone, times, day, i, c);
      }
    }
  }

  method NextSlotUtc(zones: string -> Option<Zone>, now: int, view: View) returns (next: Option<int>)
    ensures forall zone | ZoneOf(zones, view.timezone, zone) ::
              && (next.None? <==> view.frequency == "disabled" || forall c :: !Upcoming(zone, now, view.timesLocal, c))
              && (next.Some? ==> Upcoming(zone, now, view.timesLocal, next.value)
                                 && forall c :: Upcoming(zone, now, view.timesLocal, c) ==> next.value <= c)
  {
    hide Upcoming, DaysSlots, After, ParseSlot;
    if view.frequency == "disabled" { return None; }
    var zone := ResolveZone(zones, view.timezone);
    var upcoming := UpcomingSlots(zone, now, view.timesLocal);
    forall c ensures c in upcoming <==> Upcoming(zone, now, view.timesLocal, c) {
      UpcomingMembers(zone, now, view.timesLocal, c);
    }
    SameUpcoming(zones, view.timezone, now, view.timesLocal);
    if upcoming == [] { return None; }
    var best := upcoming[0];
    for k := 1 to |upcoming|
      invariant best in upcoming && forall j | 0 <= j < k :: best <= upcoming[j]
    {
      if upcoming[k] < best { best := upcoming[k]; }
    }
    return Some(best);
  }

  // No wall time of a day gone by lies ahead, and from today on no offset differs
  // from the present one by more than half a day. A fixed offset is such a zone; so is
  // one that changes by an hour.
  ghost predicate Onward(zone: Zone, now: int) {
    var nowLocal := now + zone.atUtc(now);
    var today := nowLocal - nowLocal % 86_400_000_000;
    && (forall local :: local < today ==> local - zone.atLocal(local) <= now)
    && (forall local :: local >= today ==> -43_200_000_000 <= zone.atLocal(local) - zone.atUtc(now) <= 43_200_000_000)
  }

  lemma FutureSlotIsUpcoming(zone: Zone, now: int, times: seq<string>, day: int, i: int, c: int)
      returns (u: int)
    requires Onward(zone, now) && SlotOn(zone, times, day, i, c) && c > now
    ensures Upcoming(zone, now, times, u) && u <= c
  {
    hide ParseSlot;
    var today, m := LocalDay(zone, now), ParseSlot(times[i]).value;
    DayAhead(zone, now, today + 2, m);
    if day <= today + 2 {
      var local := day * DAY + m * MINUTE;
      assert local - zone.atLocal(local) > now;
      assert day >= today;
      u := c;
    } else {
      u := SlotInstant(zone, today + 2, m);
      assert SlotOn(zone, times, today + 2, i, u);
      LaterDayIsLater(zone, now, day, m);
    }
  }

  lemma DayAhead(zone: Zone, now: int, day: int, minute: int)
    requires Onward(zone, now) && day >= LocalDay(zone, now) + 2 && 0 <= minute < 24 * 60
    ensures SlotInstant(zone, day, minute) > now
  {
    var local, nowLocal := day * DAY + minute * MINUTE, now + zone.atUtc(now);
    var today := nowLocal / DAY;
    assert today * DAY <= nowLocal < today * DAY + DAY;
    assert local >= today * DAY && -43_200_000_000 <= zone.atLocal(local) - zone.atUtc(now) <= 43_200_000_000;
  }

  lemma LaterDayIsLater(zone: Zone, now: int, day: int, minute: int)
    requires Onward(zone, now) && day > LocalDay(zone, now) + 2 && 0 <= minute < 24 * 60
    ensures SlotInstant(zone, LocalDay(zone, now) + 2, minute) <= SlotInstant(zone, day, minute)
  {
    var today := LocalDay(zone, now);
    var a, b := (today + 2) * DAY + minute * MINUTE, day * DAY + minute * MINUTE;
    assert today * DAY <= a && today * DAY <= b && a + DAY <= b;
    assert zone.atLocal(b) - zone.atLocal(a) <= 86_400_000_000;
  }

  /** The preview is the earliest slot after `now` over all days, and there is none
      exactly when no slot parses. */
  lemma NextIsEarliest(zone: Zone, now: int, times: seq<string>, next: Option<int>)
    requires Onward(zone, now)
    requires next.None? <==> forall c :: !Upcoming(zone, now, times, c)
    requires next.Some? ==>
      Upcoming(zone, now, times, next.value) && forall c :: Upcoming(zone, now, times, c) ==> next.value <= c
    ensures next.None? <==> forall i | 0 <= i < |times| :: ParseSlot(times[i]).None?
    ensures next.Some? ==> IsSlot(zone, times, next.value) && next.value > now
    ensures next.Some? ==> forall c :: IsSlot(zone, times, c) && c > now ==> next.value <= c
  {
    hide ParseSlot, Onward;
    forall c | IsSlot(zone, times, c) && c > now ensures next.Some? && next.value <= c {
      var day, i :| SlotOn(zone, times, day, i, c);
      var u := FutureSlotIsUpcoming(zone, now, times, day, i, c);
    }
    if i :| 0 <= i < |times| && ParseSlot(times[i]).Some? {
      var day := LocalDay(zone, now) + 2;
      var c := SlotInstant(zone, day, ParseSlot(times[i]).value);
      DayAhead(zone, now, day, ParseSlot(times[i]).value);
      assert SlotOn(zone, times, day, i, c);
      assert Upcoming(zone, now, times, c);
    }
    if next.Some? {
      var day, i :| SlotOn(zone, times, day, i, next.value);
    }
  }

  /** The previewed instant is one where the fan-out test holds once no lock and
      no debounce stand in its way. */
  lemma NextIsDue(zones: string -> Option<Zone>, view: View, zone: Zone, next: int)
    requires ZoneOf(zones, view.timezone, zone) && Steady(zone, next, MAX_SPREAD)
    requires view.frequency != "disabled" && IsSlot(zone, view.timesLocal, next)
    ensures IsDue(zones, next, view) <==> !JustRan(next, view) && !RunsNow(next, view)
  {
    hide IsSlot, IsDue;
    DueMeansSlotNearby(zones, next, view, zone);
    assert next - next == 0;
  }

  // --------------------------------------------------------------------- ticks

  // A quarter of an hour, and half of one.
  predicate IsTick(t: int) { t % 900_000_000 == 0 }

  predicate Near(c: int, t: int) { -450_000_000 <= c - t <= 450_000_000 }

  lemma TickNeighbours(p: int, r: int, q: int)
    requires 0 <= r < TICK && Near(TICK * p + r, TICK * q)
    ensures q == p || q == p + 1
    ensures q == p ==> r <= SLOT_HALF_WINDOW
    ensures q == p + 1 ==> r >= SLOT_HALF_WINDOW
  {
  }

  /** A slot is within the window of exactly one tick, unless it falls half-way
      between two of them, when it is within the window of both. */
  lemma OneTickUnlessHalfway(c: int)
    ensures exists t :: IsTick(t) && Near(c, t)
    ensures (forall t, t' :: IsTick(t) && IsTick(t') && Near(c, t) && Near(c, t') ==> t == t')
        <==> c % 900_000_000 != 450_000_000
  {
    var p, r := c / TICK, c % TICK;
    var low, high := TICK * p, TICK * (p + 1);
    assert c == low + r;
    assert IsTick(low) && IsTick(high);
    assert if r <= SLOT_HALF_WINDOW then Near(c, low) else Near(c, high);
    assert r == SLOT_HALF_WINDOW ==> Near(c, low) && Near(c, high);
    forall t | IsTick(t) && Near(c, t)
      ensures (t == low && r <= SLOT_HALF_WINDOW) || (t == high && r >= SLOT_HALF_WINDOW)
    {
      TickNeighbours(p, r, t / TICK);
    }
  }

  /** With whole-minute offsets no slot is half-way, so each has exactly one tick. */
  lemma WholeMinuteSlotsHaveOneTick(zone: Zone, times: seq<string>, c: int)
    requires (forall local :: zone.atLocal(local) % 60_000_000 == 0) && IsSlot(zone, times, c)
    ensures exists t :: IsTick(t) && Near(c, t)
    ensures forall t, t' :: IsTick(t) && IsTick(t') && Near(c, t) && Near(c, t') ==> t == t'
  {
    hide ParseSlot;
    var day, i :| SlotOn(zone, times, day, i, c);
    var local := day * DAY + ParseSlot(times[i]).value * MINUTE;
    var minutes := day * 24 * 60 + ParseSlot(times[i]).value - zone.atLocal(local) / MINUTE;
    assert c == minutes * MINUTE;
    OneTickUnlessHalfway(c);
    var q := c / TICK;
    assert c % TICK == c - TICK * q;
    assert c % TICK == MINUTE * (minutes - 15 * q);
  }
}

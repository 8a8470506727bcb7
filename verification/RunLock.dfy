/**
 One user's run lock over time: scheduled and manual starts set it, the end of the
 run that holds it releases it, and the slot predicate reads it.
 */
module RunLock {
  import opened Wrappers
  import opened RunTables
  import opened Scheduling
  import RunService

  // The part of a user's profile that does not change here.
  datatype Profile = Profile(cfg: Config, zones: string -> Option<Zone>, frequency: string, times: seq<string>,
                             timezone: string)

  datatype Event =
    | ScheduledStart(at: int, run: Uuid)
    | ManualStart(at: int, run: Uuid)
    | RunEnd(at: int, run: Uuid, completed: bool)

  function ViewOf(p: Profile, u: User): View {
    View(p.frequency, p.times, p.timezone, u.lastRunFinishedAt,
         if u.currentRunId.Some? then Some(p.cfg.printUuid(u.currentRunId.value)) else None,
         u.currentRunStartedAt)
  }

  function ReleaseLock(u: User, run: Uuid, completed: bool, now: int): User {
    if u.currentRunId != Some(run) then u
    else User(None, None, if completed then Some(now) else u.lastRunFinishedAt)
  }

  // The release above is what a finalize call does to its owner's row.
  lemma ReleaseIsClearUserLock(db: Db, userId: Uuid, run: Uuid, completed: bool, now: int)
    ensures var db' := RunService.ClearUserLock(db, userId, run, completed, now);
            && db'.users.Keys == db.users.Keys
            && forall u | u in db.users ::
                 db'.users[u] == if u == userId then ReleaseLock(db.users[u], run, completed, now) else db.users[u]
  {
  }

  // A scheduled start happens only when the slot predicate holds; a manual one
  // does not ask it.
  predicate Enabled(p: Profile, u: User, e: Event) {
    e.ScheduledStart? ==> IsDue(p.zones, e.at, ViewOf(p, u))
  }

  function Next(u: User, e: Event): User {
    match e
    case RunEnd(at, run, completed) => ReleaseLock(u, run, completed, at)
    case _ => User(Some(e.run), Some(e.at), u.lastRunFinishedAt)
  }

  predicate Starts(e: Event) { e.ScheduledStart? || e.ManualStart? }

  // A history in time order whose starts mint fresh run ids.
  ghost predicate IsHistory(p: Profile, users: seq<User>, events: seq<Event>) {
    && |users| == |events| + 1
    && (forall i | 0 <= i < |events| :: Enabled(p, users[i], events[i]) && users[i + 1] == Next(users[i], events[i]))
    && (forall i, j | 0 <= i <= j < |events| :: events[i].at <= events[j].at)
    && (forall i, j | 0 <= i < j < |events| && Starts(events[i]) && Starts(events[j]) :: events[i].run != events[j].run)
  }

  // Nothing between i and m started a run or ended run i.
  ghost predicate Quiet(events: seq<Event>, i: nat, m: nat)
    requires i < m <= |events|
  {
    forall k | i < k < m :: !Starts(events[k]) && events[k].run != events[i].run
  }

  lemma {:induction false} QuietKeepsLock(p: Profile, users: seq<User>, events: seq<Event>, i: nat, m: nat)
    requires IsHistory(p, users, events) && i < m <= |events| && Starts(events[i]) && Quiet(events, i, m)
    ensures users[m].currentRunId == Some(events[i].run) && users[m].currentRunStartedAt == Some(events[i].at)
    decreases m
  {
    if i + 1 < m {
      QuietKeepsLock(p, users, events, i, m - 1);
      assert !Starts(events[m - 1]) && events[m - 1].run != events[i].run;
    }
    assert users[m] == Next(users[m - 1], events[m - 1]);
  }

  // Once a run completed, the recorded finish time never moves back.
  lemma {:induction false} FinishStays(p: Profile, users: seq<User>, events: seq<Event>, m: nat, n: nat)
    requires IsHistory(p, users, events) && m < n <= |events|
    requires users[m + 1].lastRunFinishedAt == Some(events[m].at)
    ensures users[n].lastRunFinishedAt.Some? && users[n].lastRunFinishedAt.value >= events[m].at
    decreases n
  {
    if m + 1 < n {
      FinishStays(p, users, events, m, n - 1);
      assert users[n] == Next(users[n - 1], events[n - 1]);
    }
  }

  // Walking on from i, with nothing decided before m.
  lemma {:induction false} FailedFrom(p: Profile, users: seq<User>, events: seq<Event>, i: nat, m: nat, j: nat)
      returns (k: nat)
    requires IsHistory(p, users, events) && i < m <= j < |events|
    requires Starts(events[i]) && events[j].ScheduledStart? && events[j].at - events[i].at < 1_800_000_000
    requires forall n | i < n < j :: !events[n].ManualStart?
    requires Quiet(events, i, m)
    ensures i < k < j && events[k].RunEnd? && events[k].run == events[i].run && !events[k].completed
    decreases j - m
  {
    hide IsDue;
    QuietKeepsLock(p, users, events, i, m);
    assert events[m].at <= events[j].at && Enabled(p, users[m], events[m]);
    if events[m].ScheduledStart? {
      LockedIsNotDue(p, users[m], events[m].at);
      assert false;
    } else if events[m].run != events[i].run {
      k := FailedFrom(p, users, events, i, m + 1, j);
    } else if !events[m].completed {
      k := m;
    } else {
      assert users[m + 1] == Next(users[m], events[m]);
      FinishStays(p, users, events, m, j);
      assert events[i].at <= events[m].at && Enabled(p, users[j], events[j]);
      DebouncedIsNotDue(p, users[j], events[j].at);
      assert false;
    }
  }

  /** Two starts less than the stale-lock window apart, the later one scheduled and
      no manual start between them: the earlier run ended failed in between. */
  lemma EarlierRunFailed(p: Profile, users: seq<User>, events: seq<Event>, i: nat, j: nat) returns (k: nat)
    requires IsHistory(p, users, events) && i < j < |events|
    requires Starts(events[i]) && events[j].ScheduledStart? && events[j].at - events[i].at < 1_800_000_000
    requires forall n | i < n < j :: !events[n].ManualStart?
    ensures i < k < j && events[k].RunEnd? && events[k].run == events[i].run && !events[k].completed
  {
    k := FailedFrom(p, users, events, i, i + 1, j);
  }

  lemma LockedIsNotDue(p: Profile, u: User, now: int)
    requires u.currentRunId.Some? && u.currentRunStartedAt.Some? && now - u.currentRunStartedAt.value < 1_800_000_000
    ensures !IsDue(p.zones, now, ViewOf(p, u))
  {
  }

  lemma DebouncedIsNotDue(p: Profile, u: User, now: int)
    requires u.lastRunFinishedAt.Some? && now - u.lastRunFinishedAt.value < 3_600_000_000
    ensures !IsDue(p.zones, now, ViewOf(p, u))
  {
  }

  /** Whatever manual starts lie in between: before a scheduled start that comes less
      than the stale-lock window after some start, the latest start had failed. */
  lemma {:induction false} LatestStartFailed(p: Profile, users: seq<User>, events: seq<Event>, i: nat, j: nat)
    returns (latest: nat, k: nat)
    requires IsHistory(p, users, events) && i < j < |events|
    requires Starts(events[i]) && events[j].ScheduledStart? && events[j].at - events[i].at < 1_800_000_000
    ensures i <= latest < k < j && Starts(events[latest])
    ensures forall n | latest < n < j :: !Starts(events[n])
    ensures events[k].RunEnd? && events[k].run == events[latest].run && !events[k].completed
    decreases j - i
  {
    hide Enabled, Next;
    if n :| i < n < j && Starts(events[n]) {
      assert events[i].at <= events[n].at;
      latest, k := LatestStartFailed(p, users, events, n, j);
    } else {
      latest := i;
      k := EarlierRunFailed(p, users, events, i, j);
    }
  }

  // Two scheduled starts less than the stale-lock window apart, although the run of
  // the first had not ended when the second was made.
  ghost predicate StartsTwice(p: Profile, users: seq<User>, events: seq<Event>, i: nat, j: nat) {
    && IsHistory(p, users, events) && i < j < |events|
    && events[i].ScheduledStart? && events[j].ScheduledStart? && events[j].at - events[i].at < 1_800_000_000
    && forall k | i < k < j :: !(events[k].RunEnd? && events[k].run == events[i].run)
  }

  // The schedule is on and has a slot at all.
  ghost predicate HasSlots(p: Profile) {
    p.frequency != "disabled" && exists c :: IsSlot(ResolveZone(p.zones, p.timezone), p.times, c)
  }

  // A slot with no change of offset by most of a day right around it.
  ghost predicate PlainSlot(p: Profile, c: int) {
    var zone := ResolveZone(p.zones, p.timezone);
    IsSlot(zone, p.times, c) && Steady(zone, c, MAX_SPREAD) && Steady(zone, c + 5 * MINUTE, MAX_SPREAD)
  }

  /** The manual start matters: one that replaces the lock and fails lets the schedule
      start a second run while the first goes on. This can happen to every profile
      with a slot, of which one lies off the days a zone skips or repeats, and needs
      a manual start. */
  lemma ManualStartReopensSlot(p: Profile)
    requires HasSlots(p) ==> exists c :: PlainSlot(p, c)
    ensures (exists users, events, i: nat, j: nat :: StartsTwice(p, users, events, i, j)) <==> HasSlots(p)
    ensures forall users, events: seq<Event>, i: nat, j: nat :: StartsTwice(p, users, events, i, j) ==>
              exists n :: i < n < j && events[n].ManualStart?
  {
    hide IsDue, IsHistory, IsSlot;
    if HasSlots(p) {
      var c :| PlainSlot(p, c);
      var users, events := ReopenedAt(p, c);
      assert StartsTwice(p, users, events, 0, 3);
    }
    forall users, events: seq<Event>, i: nat, j: nat | StartsTwice(p, users, events, i, j)
      ensures HasSlots(p) && exists n :: i < n < j && events[n].ManualStart?
    {
      StartNeedsSlot(p, users, events, j);
      if forall n | i < n < j :: !events[n].ManualStart? {
        var k := EarlierRunFailed(p, users, events, i, j);
      }
    }
  }

  lemma StartNeedsSlot(p: Profile, users: seq<User>, events: seq<Event>, j: nat)
    requires IsHistory(p, users, events) && j < |events| && events[j].ScheduledStart?
    ensures HasSlots(p)
  {
    hide IsSlot, CandidateSlots;
    assert Enabled(p, users[j], events[j]);
    var zone, now := ResolveZone(p.zones, p.timezone), events[j].at;
    var c :| c in CandidateSlots(zone, now, p.times) && Abs(c - now) <= SLOT_HALF_WINDOW;
    CandidateIsSlot(zone, now, p.times, c);
  }

  // At the slot c the schedule starts run 0; a manual start replaces it with run 1,
  // which fails; the schedule starts run 2 five minutes after the slot.
  lemma ReopenedAt(p: Profile, c: int) returns (users: seq<User>, events: seq<Event>)
    requires p.frequency != "disabled" && PlainSlot(p, c)
    ensures StartsTwice(p, users, events, 0, 3)
  {
    hide IsDue, IsSlot;
    events := [
      ScheduledStart(c, 0), ManualStart(c + MINUTE, 1), RunEnd(c + 2 * MINUTE, 1, false),
          ScheduledStart(c + 5 * MINUTE, 2)];
    var u0 := User(None, None, None);
    var u1 := Next(u0, events[0]);
    var u2 := Next(u1, events[1]);
    var u3 := Next(u2, events[2]);
    users := [u0, u1, u2, u3, Next(u3, events[3])];
    FreeUserIsDue(p, u0, c, c);
    FreeUserIsDue(p, u3, c, c + 5 * MINUTE);
  }

  lemma FreeUserIsDue(p: Profile, u: User, c: int, now: int)
    requires Steady(ResolveZone(p.zones, p.timezone), now, MAX_SPREAD)
    requires p.frequency != "disabled" && IsSlot(ResolveZone(p.zones, p.timezone), p.times, c)
    requires u.currentRunId.None? && u.lastRunFinishedAt.None? && Abs(c - now) <= SLOT_HALF_WINDOW
    ensures IsDue(p.zones, now, ViewOf(p, u))
  {
    hide IsDue, IsSlot;
    DueMeansSlotNearby(p.zones, now, ViewOf(p, u), ResolveZone(p.zones, p.timezone));
  }

  lemma {:induction false} ReplacedStaysReplaced(p: Profile, users: seq<User>, events: seq<Event>, i: nat, k: nat,
      n: nat)
    requires IsHistory(p, users, events) && i < k < n <= |events| && Starts(events[i]) && Starts(events[k])
    ensures users[n].currentRunId != Some(events[i].run)
    decreases n
  {
    if k + 1 < n { ReplacedStaysReplaced(p, users, events, i, k, n - 1); }
    assert users[n] == Next(users[n - 1], events[n - 1]);
  }

  /** A run whose lock was replaced by a later start changes nothing when it ends:
      neither the newer lock nor the finish time. */
  lemma ReplacedRunReleasesNothing(p: Profile, users: seq<User>, events: seq<Event>, i: nat, k: nat, e: nat)
    requires IsHistory(p, users, events) && i < k < e < |events| && Starts(events[i]) && Starts(events[k])
    requires events[e].RunEnd? && events[e].run == events[i].run
    ensures users[e + 1] == users[e]
  {
    ReplacedStaysReplaced(p, users, events, i, k, e);
  }
}

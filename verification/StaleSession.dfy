/**
 A finalize call whose session still holds a copy of the run row read before an
 earlier commit. Counts are queried afresh; the run's own columns are read from the
 copy, and only the columns the call changes on it are written back.
 */
module StaleSession {
  import opened Wrappers
  import opened RunTables
  import opened RunMeasure
  import opened RunService
  import opened RunFinalizeLaws
  import opened RunDispatchLaws
  import opened RunLifecycle
  import opened RunStranding

  // What the session sees: the cluster claim is a conditional update of the
  // committed row, everything else on the row comes from the copy.
  function Seen(db: Db, runId: Uuid, copy: Run): Db
    requires runId in db.runs
  {
    db.(runs := db.runs[runId := copy.(clusterEnqueuedAt := db.runs[runId].clusterEnqueuedAt)])
  }

  // The committed row after the columns that differ from the copy were written.
  function Flushed(committed: Run, copy: Run, final: Run): Run {
    Run(final.userId,
        if final.status != copy.status then final.status else committed.status,
        if final.completedAt != copy.completedAt then final.completedAt else committed.completedAt,
        if final.stats != copy.stats then final.stats else committed.stats,
        if final.costCents != copy.costCents then final.costCents else committed.costCents,
        if final.error != copy.error then final.error else committed.error,
        final.clusterEnqueuedAt)
  }

  function FinalizeOnCopy(cfg: Config, db: Db, copy: Run, userId: Uuid, runId: Uuid, ports: Ports, ans: Answers,
      now: int): Outcome
    requires runId in db.runs
  {
    var o := FinalizeCall(cfg, Seen(db, runId, copy), userId, Some(runId), ports, ans, now);
    if o.raised || runId !in o.db.runs then o.(db := db)
    else o.(db := o.db.(runs := db.runs[runId := Flushed(db.runs[runId], copy, o.db.runs[runId])]))
  }

  /** A copy that is up to date makes no difference to a committed call. */
  lemma FreshCopyIsTheRow(cfg: Config, db: Db, userId: Uuid, runId: Uuid, ports: Ports, ans: Answers, now: int)
    requires cfg.Lawful() && runId in db.runs
    ensures var o := FinalizeCall(cfg, db, userId, Some(runId), ports, ans, now);
            !o.raised ==> FinalizeOnCopy(cfg, db, db.runs[runId], userId, runId, ports, ans, now) == o
  {
    hide FinalizeCall, AccountIdsFromStats, ProgressSnapshot, Counted, OtherKeysKept, HasFatal, CostCents;
    assert Seen(db, runId, db.runs[runId]) == db;
    FinalizeIgnores(cfg, db, userId, Some(runId), ports, ans, now);
    if Live(db, userId, runId) { FinalizeEffect(cfg, db, userId, runId, ports, ans, now); }
  }

  // Measure and members do not depend on the run rows.
  lemma RowsDoNotCount(t: Target, db: Db, db': Db)
    requires db' == db.(runs := db'.runs)
    ensures Measure(t, db') == Measure(t, db)
  {
    SameItems(db, db', t.runId, t.scope);
    assert Members(db', t.runId, t.scope) == Members(db, t.runId, t.scope);
    assert t.Unclassified(db') == t.Unclassified(db);
    assert t.Awaiting(db') == t.Awaiting(db);
    assert RunNewsletters(db', t.runId, t.scope) == RunNewsletters(db, t.runId, t.scope);
    assert RunClusterSummaries(db', t.userId, t.runId) == RunClusterSummaries(db, t.userId, t.runId);
  }

  lemma SameVerdict(a: Db, b: Db, runId: Uuid)
    requires a.promptLog == b.promptLog
    ensures HasFatal(a, runId) == HasFatal(b, runId)
  {
  }

  lemma RaisedIsNotFinished(cfg: Config, db: Db, userId: Uuid, runId: Uuid, ports: Ports, ans: Answers, now: int)
    ensures var o := FinalizeCall(cfg, db, userId, Some(runId), ports, ans, now); o.raised ==> !o.finished
  {
    hide ProgressSnapshot, Prepare, DispatchAll, Conclude, AccountIdsFromStats;
  }

  /** What a call does to a run that has ended. A copy read after the terminal commit
      changes nothing. One read before ends the run again, with a new finish time and
      whatever verdict the log now gives, exactly when nothing is pending: in the
      tables the call leaves, or, without an inline builder, in those it meets. If
      something is pending the status stays as it is, except that a copy read while
      the run was queued sets it to running; the handlers mark a run running first. */
  lemma EndedRunEndsAgain(cfg: Config, t: Target, db: Db, copy: Run, ports: Ports, ans: Answers, now: int)
    requires cfg.Lawful() && t.cfg == cfg && t.runId in db.runs && Terminal(db.runs[t.runId].status)
    requires copy.userId == db.runs[t.runId].userId == t.userId && (!Terminal(copy.status) ==> copy.completedAt.None?)
    requires t.scope == CallScope(cfg, Seen(db, t.runId, copy), t.runId, ans)
    ensures var o := FinalizeOnCopy(cfg, db, copy, t.userId, t.runId, ports, ans, now);
            && t.runId in o.db.runs
            && (Terminal(copy.status) ==> o.db == db && o.sent == [] && !o.finished)
            && (o.raised ==> o.db == db && !o.finished)
            && (!Terminal(copy.status) && !o.raised ==> (o.finished <==> Measure(t, o.db) == 0))
            && (!Terminal(copy.status) && !BuildsInline(ports) ==> (o.finished <==> Measure(t, db) == 0))
            && (o.finished ==>
                  && o.db.runs[t.runId].completedAt == Some(now)
                  && o.db.runs[t.runId].status == if HasFatal(o.db, t.runId) then Failed else Complete)
            && (!o.finished ==>
                  && o.db.runs[t.runId].completedAt == db.runs[t.runId].completedAt
                  && o.db.runs[t.runId].status ==
                     if copy.status == Queued && !o.raised then Running else db.runs[t.runId].status)
  {
    hide FinalizeCall, Measure, AccountIdsFromStats, ProgressSnapshot, Counted, OtherKeysKept, CostCents, HasFatal;
    var seen := Seen(db, t.runId, copy);
    RowsDoNotCount(t, db, seen);
    FinalizeIgnores(cfg, seen, t.userId, Some(t.runId), ports, ans, now);
    if Terminal(copy.status) {
      assert db.runs[t.runId := db.runs[t.runId]] == db.runs;
    } else {
      FinalizeEffect(cfg, seen, t.userId, t.runId, ports, ans, now);
      RaisedIsNotFinished(cfg, seen, t.userId, t.runId, ports, ans, now);
      if !BuildsInline(ports) { FinishedIffNothingPending(cfg, t, seen, ports, ans, now); }
      var o := FinalizeCall(cfg, seen, t.userId, Some(t.runId), ports, ans, now);
      if !o.raised {
        var written := FinalizeOnCopy(cfg, db, copy, t.userId, t.runId, ports, ans, now);
        SameVerdict(o.db, written.db, t.runId);
        MeasureZero(t, o.db);
        RowsDoNotCount(t, o.db, written.db);
      }
    }
  }

  // The row as a handler marks it, and a call in which nothing is pending.
  function RunningRow(cfg: Config): Run {
    NewRun(cfg).(status := Running)
  }

  function LastCall(at: int): Event {
    Finalize(0, 0, None, OPEN_QUEUE, Answers([], []), at)
  }

  /** The input that shows it, reached from an empty database: a session that read
      the row while the run was running moves the finish time of the ended run. */
  lemma FinishTimeMoves(cfg: Config, now: int) returns (states: seq<State>, events: seq<Event>, end: State)
    requires cfg.Lawful()
    ensures Reaches(cfg, states, events, end) && |events| == 3
    ensures 0 in states[2].db.runs && states[2].db.runs[0] == RunningRow(cfg)
    ensures 0 in end.db.runs && Terminal(end.db.runs[0].status) && end.db.runs[0].completedAt == Some(5)
    ensures var o := FinalizeOnCopy(cfg, end.db, RunningRow(cfg), 0, 0, OPEN_QUEUE, Answers([], []), now);
            o.finished && 0 in o.db.runs && o.db.runs[0].completedAt == Some(now)
  {
    NewRunScope(cfg);
    states, events := RunningReached(cfg);
    LastCallEnds(cfg, 5);
    var running := State(EmptyRunning(cfg), []);
    hide Next, Enabled, FinalizeOnCopy, Measure, AccountIdsFromStats, HasFatal;
    OneStepMore(cfg, states, events, running, LastCall(5));
    end := Next(cfg, running, LastCall(5));
    states, events := states + [end], events + [LastCall(5)];
    EndedRunEndsAgain(cfg, Watch(cfg), end.db, RunningRow(cfg), OPEN_QUEUE, Answers([], []), now);
  }

  lemma RunningReached(cfg: Config) returns (states: seq<State>, events: seq<Event>)
    ensures Reaches(cfg, states, events, State(EmptyRunning(cfg), [])) && |events| == 2
  {
    var s := State(EMPTY_DB, []);
    states, events := [s], [];
    var e := CreateRun(0, NewRun(cfg));
    OneStepMore(cfg, states, events, s, e);
    states, events, s := states + [Next(cfg, s, e)], events + [e], Next(cfg, s, e);
    e := MarkRunning(0);
    assert s.db.runs == map[0 := NewRun(cfg)];
    OneStepMore(cfg, states, events, s, e);
    states, events, s := states + [Next(cfg, s, e)], events + [e], Next(cfg, s, e);
    assert s.db.runs == map[0 := RunningRow(cfg)];
  }

  function EmptyRunning(cfg: Config): Db {
    EMPTY_DB.(runs := map[0 := RunningRow(cfg)])
  }

  lemma LastCallEnds(cfg: Config, at: int)
    requires cfg.Lawful()
    ensures var s, e := State(EmptyRunning(cfg), []), LastCall(at);
            var db := Next(cfg, s, e).db;
            && Enabled(cfg, s, e) && 0 in db.runs && db.runs[0].userId == 0
            && Terminal(db.runs[0].status) && db.runs[0].completedAt == Some(at) && Measure(Watch(cfg), db) == 0
  {
    hide FinalizeCall, Measure, Next, Enabled, Terminal, EmptyRunning;
    LastCallFinishes(cfg, at);
    LastCallFits(cfg, at);
    PlainClose(cfg, State(EmptyRunning(cfg), []), at);
  }

  // A closing transaction without a hygiene claim is its finalize call.
  lemma PlainClose(cfg: Config, s: State, at: int)
    ensures Next(cfg, s, LastCall(at)) ==
            Commit(s, FinalizeCall(cfg, s.db, 0, Some(0), OPEN_QUEUE, Answers([], []), at))
  {
    hide FinalizeCall;
  }

  lemma LastCallFits(cfg: Config, at: int)
    requires cfg.Lawful()
    ensures Enabled(cfg, State(EmptyRunning(cfg), []), LastCall(at))
  {
    NothingPending(cfg);
    NewRunScope(cfg);
    hide ProgressSnapshot, AccountIdsFromStats, FinalizeCall;
  }

  lemma LastCallFinishes(cfg: Config, at: int)
    requires cfg.Lawful()
    ensures var o := FinalizeCall(cfg, EmptyRunning(cfg), 0, Some(0), OPEN_QUEUE, Answers([], []), at);
            && !o.raised && 0 in o.db.runs && o.db.runs[0].userId == 0
            && Terminal(o.db.runs[0].status) && o.db.runs[0].completedAt == Some(at) && Measure(Watch(cfg), o.db) == 0
  {
    var t, db, ans := Watch(cfg), EmptyRunning(cfg), Answers([], []);
    NewRunScope(cfg);
    NothingToDo(cfg);
    assert Live(db, 0, 0) && CallScope(cfg, db, 0, ans) == [0];
    hide FinalizeCall, Measure, ProgressSnapshot, AccountIdsFromStats, Counted, OtherKeysKept, HasFatal, CostCents;
    hide MissingCategories, RunTables.Unclassified, AwaitingSummary, PendingClusters, EmptyRunning;
    NothingDueSendsNothing(cfg, t, db, OPEN_QUEUE, ans, at);
    FinalizeEffect(cfg, db, 0, 0, OPEN_QUEUE, ans, at);
    MeasureZero(t, FinalizeCall(cfg, db, 0, Some(0), OPEN_QUEUE, ans, at).db);
  }

  lemma NothingPending(cfg: Config)
    ensures !WantsCluster(ProgressSnapshot(cfg, EmptyRunning(cfg), 0, 0, [0]))
  {
    var db := EmptyRunning(cfg);
    assert Members(db, 0, [0]) == {};
    assert RunNewsletters(db, 0, [0]) == {};
  }

  lemma NothingToDo(cfg: Config)
    ensures Measure(Watch(cfg), EmptyRunning(cfg)) == 0
  {
    var t, db := Watch(cfg), EmptyRunning(cfg);
    assert Members(db, 0, [0]) == {};
    assert t.Unclassified(db) == {} && t.Awaiting(db) == {} && RunNewsletters(db, 0, [0]) == {};
    forall b ensures CategoryItems(db, 0, [0], b) == {} {
    }
  }
}

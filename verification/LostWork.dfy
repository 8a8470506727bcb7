/**
 When the finalize part of a handler raises, and a record of the unsubscribe stage
 whose row work is lost by it.
 */
module LostWork {
  import opened PromptLog
  import opened Wrappers
  import opened RunTables
  import opened RunMeasure
  import opened RunService
  import opened RunFinalizeLaws
  import opened RunDispatchLaws
  import opened RunStranding
  import opened LambdaWorker
  import RunLifecycle

  lemma ClusterIsWanted(t: Target, db: Db)
    requires t.Clusters(db) == 1 && t.Unclassified(db) == {}
    ensures WantsCluster(ProgressSnapshot(t.cfg, db, t.userId, t.runId, t.scope))
  {
  }

  /** A call whose cluster job is due raises when no message goes through. */
  lemma DueClusterRaises(cfg: Config, t: Target, db: Db, ports: Ports, ans: Answers, now: int)
    requires cfg.Lawful() && t.cfg == cfg && Live(db, t.userId, t.runId) && t.scope == CallScope(cfg, db, t.runId, ans)
    requires t.Clusters(db) == 1 && t.Unclassified(db) == {} && !Claimed(db, ClusterClaim(t.runId))
    requires ports.clusterSender && |ans.newest| >= MIN_CLUSTER_NEWSLETTERS && forall m :: ports.sendFails(m)
    ensures FinalizeCall(cfg, db, t.userId, Some(t.runId), ports, ans, now).raised
  {
    hide FinalizeCall, MissingCategories, PendingClusters;
    var o := FinalizeCall(cfg, db, t.userId, Some(t.runId), ports, ans, now);
    if !o.raised {
      EverythingDueIsClaimed(cfg, db, t.userId, t.runId, ports, ans, now);
      ClusterIsWanted(t, db);
      assert Claimed(o.db, ClusterClaim(t.runId));
      ClaimsAreSends(cfg, db, t.userId, t.runId, ports, ans, now, ClusterClaim(t.runId));
      var m :| m in o.sent && KeyOf(m) == Some(ClusterClaim(t.runId));
      CallDelivers(cfg, db, t.userId, t.runId, ports, ans, now, m);
    }
  }

  // One hygiene score, logged, with a summarize queue that refuses every message.
  const SCORE := PromptLogRow(Some(0), None, CallOk, Some("unsubscribe_borderline"), 0)

  const SCORING := Job(
    0, 0, Some(0), false, false, false,
    d => Some(ApplyWork(d, LogCall(SCORE))), d => [], d => [], (d, r, c) => None, m => true)

  const ALL_SET := Env(true, true, true, true, true, true)

  /** The input that shows it: on a reachable database whose cluster job is due, an
      unsubscribe record that scored a sender loses the score when the send fails. */
  lemma UnsubscribeLosesItsWork(cfg: Config, now: int)
    returns (states: seq<RunLifecycle.State>, events: seq<RunLifecycle.Event>)
    requires cfg.Lawful() && cfg.clusteringEnabled
    ensures RunStranding.Reaches(cfg, states, events, RunLifecycle.State(TwoNewsletters(cfg), []))
    ensures var db, record := TwoNewsletters(cfg), Record(None, Some("unsubscribe"), Some(SCORING));
            var h := HandleRecord(cfg, ALL_SET, db, record, Answers([], [2, 1]), now);
            && WorkDone(ALL_SET, db, record) && Worked(db, SCORING) != Some(db)
            && h.raised && h.db == db
  {
    var db, record, ans := TwoNewsletters(cfg), Record(None, Some("unsubscribe"), Some(SCORING)), Answers([], [2, 1]);
    var w := ApplyWork(StartRunning(db, 0), LogCall(SCORE));
    ScoredTables(cfg);
    RoutedToUnsubscribe();
    ScoringProgress(db, w, now);
    ScoringRaises(cfg, now);
    states, events := TwoNewslettersReached(cfg);
    hide RunStranding.Reaches, FinalizeCall, Worked, TwoNewsletters, ProgressOf;
    hide ApplyWork, StageOf, GoesOn, PendingClusters;
    RaisedIsRolledBack(cfg, ALL_SET, db, w, record, ans, now);
  }

  lemma ScoringRaises(cfg: Config, now: int)
    requires cfg.Lawful() && cfg.clusteringEnabled
    ensures var w := ApplyWork(StartRunning(TwoNewsletters(cfg), 0), LogCall(SCORE));
            FinalizeCall(cfg, w, 0, Some(0), PortsOf(ALL_SET, UnsubscribeStage, SCORING), Answers([], [2, 1]),
                         now).raised
  {
    ScoredTables(cfg);
    hide FinalizeCall, TwoNewsletters, ApplyWork, PendingClusters, Members, AccountIdsFromStats, Unclassified;
    var w := ApplyWork(StartRunning(TwoNewsletters(cfg), 0), LogCall(SCORE));
    DueClusterRaises(cfg, Watch(cfg), w, PortsOf(ALL_SET, UnsubscribeStage, SCORING), Answers([], [2, 1]), now);
  }

  // A record that reaches a finalize call which raises.
  lemma RaisedIsRolledBack(cfg: Config, env: Env, db: Db, w: Db, record: Record, ans: Answers, now: int)
    requires record.job.Some? && StageOf(record.source).UnsubscribeStage?
    requires ProgressOf(env, UnsubscribeStage, db, record.job.value, now) == Reaches(db, w, w, [])
    requires var job := record.job.value;
             FinalizeCall(cfg, w, job.userId, job.runId, PortsOf(env, UnsubscribeStage, job), ans, now).raised
    ensures var h := HandleRecord(cfg, env, db, record, ans, now); h.raised && h.db == db
  {
    hide FinalizeCall, ProgressOf, StageOf;
  }

  lemma {:induction false} LastSegment(s: string)
    requires '-' !in s
    ensures TailSegment(s) == s
  {
  }

  lemma RoutedToUnsubscribe()
    ensures StageOf(Some("unsubscribe")) == UnsubscribeStage
  {
    hide TailSegment;
    LastSegment("unsubscribe");
  }

  lemma ScoringProgress(db: Db, w: Db, now: int)
    requires Worked(db, SCORING) == Some(w)
    ensures ProgressOf(ALL_SET, UnsubscribeStage, db, SCORING, now) == Reaches(db, w, w, [])
  {
    hide Worked, IngestProgress, ClassifyProgress, SummarizeProgress;
  }

  lemma ScoredTables(cfg: Config)
    requires cfg.Lawful() && cfg.clusteringEnabled
    ensures var t, db := Watch(cfg), TwoNewsletters(cfg);
            var w := ApplyWork(StartRunning(db, 0), LogCall(SCORE));
            && 0 in db.runs && Worked(db, SCORING) == Some(w) && w != db
            && t.Clusters(w) == 1 && t.Unclassified(w) == {} && !Claimed(w, ClusterClaim(0))
            && GoesOn(cfg, t, w)
  {
    var t, db := Watch(cfg), TwoNewsletters(cfg);
    var started := StartRunning(db, 0);
    var w := ApplyWork(started, LogCall(SCORE));
    TwoNewslettersOwe(cfg);
    assert Members(started, 0, [0]) == Members(db, 0, [0]);
    assert RunNewsletters(started, 0, [0]) == RunNewsletters(db, 0, [0]);
    assert RunClusterSummaries(started, 0, 0) == RunClusterSummaries(db, 0, 0);
    assert t.Clusters(started) == 1;
    ClusterFreedByWork(t, started, LogCall(SCORE));
    assert Members(w, 0, [0]) == Members(db, 0, [0]);
    assert |w.promptLog| == |db.promptLog| + 1;
  }
}

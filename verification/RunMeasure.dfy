/**
 The row work done by the pipeline stages, and the measure it drives to zero.

 The stage handlers themselves are the environment: each is seen as the one row
 it adds. A step is productive when it resolves a row the counters still wait
 for, and every productive step strictly lowers the measure.
 */
module RunMeasure {
  import opened Wrappers
  import opened RunTables
  import opened RunTerms

  datatype Work =
    | Classify(emailId: Uuid, verdict: Classification)
    | Summarize(emailId: Uuid)
    | LogCall(row: PromptLogRow)
    | SummarizeCluster(clusterId: Uuid, cluster: Cluster)
    | WriteDigest(runId: Uuid, category: Label)
    | MarkRead(emailId: Uuid)

  function ApplyWork(db: Db, w: Work): (r: Db)
    ensures r.runs == db.runs && r.users == db.users && r.members == db.members
    ensures r.hygieneClaims == db.hygieneClaims && r.categoryClaims == db.categoryClaims
  {
    match w
    case Classify(e, c) => db.(classifications := db.classifications[e := c])
    case Summarize(e) => db.(emailSummaries := db.emailSummaries + {e})
    case LogCall(row) => db.(promptLog := db.promptLog + [row])
    case SummarizeCluster(k, cluster) =>
      db.(clusters := db.clusters[k := cluster], clusterSummaries := db.clusterSummaries + {k})
    case WriteDigest(r, c) => db.(categoryDigests := db.categoryDigests + {(r, c)})
    case MarkRead(e) =>
      if e in db.emails then db.(emails := db.emails[e := db.emails[e].(unread := false)]) else db
  }

  // The run whose progress is watched.
  datatype Target = Target(cfg: Config, userId: Uuid, runId: Uuid, scope: seq<Uuid>)
  {
    function Unclassified(db: Db): set<Uuid> { RunTables.Unclassified(db, runId, scope) }
    function Awaiting(db: Db): set<Uuid> { AwaitingSummary(db, runId, scope) }
    function Clusters(db: Db): nat { PendingClusters(cfg, db, userId, runId, scope) }
    function Missing(db: Db): seq<Label> { MissingCategories(db, runId, scope) }
    function Snapshot(db: Db): RunTables.Snapshot { ProgressSnapshot(cfg, db, userId, runId, scope) }
  }

  function Measure(t: Target, db: Db): nat {
    4 * |t.Unclassified(db)| + 2 * |t.Awaiting(db)| + t.Clusters(db) + |t.Missing(db)|
  }

  ghost predicate Productive(t: Target, db: Db, w: Work) {
    match w
    case Classify(e, _) => e in t.Unclassified(db)
    case Summarize(e) => e in t.Awaiting(db)
    case LogCall(row) =>
      || (row.emailId.Some? && row.emailId.value in t.Awaiting(db) && FailsRun(row, t.runId))
      || (t.Clusters(db) == 1 && ClusterError(row, t.runId))
    case SummarizeCluster(k, cluster) => t.Clusters(db) == 1 && cluster == Cluster(t.userId, Some(t.runId))
    case WriteDigest(r, c) => r == t.runId && c in t.Missing(db)
    case MarkRead(_) => false
  }

  // ------------------------------------------------------------- log appending

  lemma FatalForAppend(db: Db, row: PromptLogRow, runId: Uuid, e: Uuid)
    ensures FatalFor(ApplyWork(db, LogCall(row)), runId, e)
       <==> FatalFor(db, runId, e) || (FatalRow(row, runId) && row.emailId == Some(e))
  {
    var log := db.promptLog + [row];
    assert log[|db.promptLog|] == row;
    if i :| 0 <= i < |db.promptLog| && FatalRow(db.promptLog[i], runId) && db.promptLog[i].emailId == Some(e) {
      assert log[i] == db.promptLog[i];
    }
  }

  lemma ClusterFailedAppend(db: Db, row: PromptLogRow, runId: Uuid)
    ensures ClusterFailed(ApplyWork(db, LogCall(row)), runId)
       <==> ClusterFailed(db, runId) || ClusterFailureRow(row, runId)
  {
    var log := db.promptLog + [row];
    assert log[|db.promptLog|] == row;
    if i :| 0 <= i < |db.promptLog| && ClusterFailureRow(db.promptLog[i], runId) {
      assert log[i] == db.promptLog[i];
    }
  }

  // ------------------------------------------------------- one lemma per stage

  // Classifying can fill a category only with a mail that already has a summary.
  lemma ClassifyKeepsItems(t: Target, db: Db, e: Uuid, c: Classification, b: Label)
    requires e in t.Unclassified(db)
    requires b != c.bucket || e !in db.emailSummaries
    ensures CategoryItems(ApplyWork(db, Classify(e, c)), t.runId, t.scope, b) == CategoryItems(db, t.runId, t.scope, b)
  {
  }

  lemma ClassifyAwaiting(t: Target, db: Db, e: Uuid, c: Classification)
    requires e in t.Unclassified(db)
    ensures var db' := ApplyWork(db, Classify(e, c));
            && |t.Unclassified(db')| == |t.Unclassified(db)| - 1
            && |t.Awaiting(db')| <= |t.Awaiting(db)| + (if e in db.emailSummaries then 0 else 1)
  {
    var db' := ApplyWork(db, Classify(e, c));
    assert Members(db', t.runId, t.scope) == Members(db, t.runId, t.scope);
    assert t.Unclassified(db') == t.Unclassified(db) - {e};
    var bound := if e in db.emailSummaries then t.Awaiting(db) else t.Awaiting(db) + {e};
    SubsetCardinality(t.Awaiting(db'), bound);
  }

  lemma ClassifyLowers(t: Target, db: Db, e: Uuid, c: Classification)
    requires e in t.Unclassified(db)
    ensures Measure(t, ApplyWork(db, Classify(e, c))) < Measure(t, db)
  {
    hide Unclassified, AwaitingSummary, CategoryItems, RunNewsletters, RunClusterSummaries;
    ClassifyAwaiting(t, db, e, c);
    forall b | b != c.bucket || e !in db.emailSummaries
      ensures CategoryItems(ApplyWork(db, Classify(e, c)), t.runId, t.scope, b)
          == CategoryItems(db, t.runId, t.scope, b)
    {
      ClassifyKeepsItems(t, db, e, c, b);
    }
  }

  lemma SummarizeLowers(t: Target, db: Db, e: Uuid)
    requires e in t.Awaiting(db)
    ensures Measure(t, ApplyWork(db, Summarize(e))) < Measure(t, db)
  {
    var db' := ApplyWork(db, Summarize(e));
    assert Members(db', t.runId, t.scope) == Members(db, t.runId, t.scope);
    assert t.Unclassified(db') == t.Unclassified(db);
    assert t.Awaiting(db') == t.Awaiting(db) - {e};
    assert RunNewsletters(db', t.runId, t.scope) == RunNewsletters(db, t.runId, t.scope);
    forall b | b != db.classifications[e].bucket
      ensures CategoryItems(db', t.runId, t.scope, b) == CategoryItems(db, t.runId, t.scope, b)
    {
    }
  }

  lemma LogCallLowers(t: Target, db: Db, row: PromptLogRow)
    requires Productive(t, db, LogCall(row))
    ensures Measure(t, ApplyWork(db, LogCall(row))) < Measure(t, db)
  {
    var db' := ApplyWork(db, LogCall(row));
    assert Members(db', t.runId, t.scope) == Members(db, t.runId, t.scope);
    assert t.Unclassified(db') == t.Unclassified(db);
    assert RunNewsletters(db', t.runId, t.scope) == RunNewsletters(db, t.runId, t.scope);
    forall b ensures CategoryItems(db', t.runId, t.scope, b) == CategoryItems(db, t.runId, t.scope, b) {
    }
    ClusterFailedAppend(db, row, t.runId);
    forall e: Uuid ensures FatalFor(db', t.runId, e)
        <==> FatalFor(db, t.runId, e) || (FatalRow(row, t.runId) && row.emailId == Some(e)) {
      FatalForAppend(db, row, t.runId, e);
    }
    if row.emailId.Some? {
      assert t.Awaiting(db') == t.Awaiting(db) - {row.emailId.value};
    } else {
      assert t.Awaiting(db') == t.Awaiting(db);
    }
  }

  lemma SummarizeClusterLowers(t: Target, db: Db, k: Uuid, cluster: Cluster)
    requires Productive(t, db, SummarizeCluster(k, cluster))
    ensures Measure(t, ApplyWork(db, SummarizeCluster(k, cluster))) < Measure(t, db)
  {
    var db' := ApplyWork(db, SummarizeCluster(k, cluster));
    assert Members(db', t.runId, t.scope) == Members(db, t.runId, t.scope);
    assert t.Unclassified(db') == t.Unclassified(db);
    assert t.Awaiting(db') == t.Awaiting(db);
    forall b ensures CategoryItems(db', t.runId, t.scope, b) == CategoryItems(db, t.runId, t.scope, b) {
    }
    assert k in RunClusterSummaries(db', t.userId, t.runId);
  }

  lemma WriteDigestLowers(t: Target, db: Db, c: Label)
    requires c in t.Missing(db)
    ensures Measure(t, ApplyWork(db, WriteDigest(t.runId, c))) < Measure(t, db)
  {
    var db' := ApplyWork(db, WriteDigest(t.runId, c));
    DigestsOnly(t, db, db');
  }

  // Digest rows and claims touch no counter but the categories'.
  lemma DigestsOnly(t: Target, db: Db, db': Db)
    requires db'.emails == db.emails && db'.members == db.members && db'.classifications == db.classifications
    requires db'.emailSummaries == db.emailSummaries && db'.promptLog == db.promptLog
    requires db'.clusters == db.clusters && db'.clusterSummaries == db.clusterSummaries
    ensures t.Unclassified(db') == t.Unclassified(db) && t.Awaiting(db') == t.Awaiting(db)
    ensures t.Clusters(db') == t.Clusters(db)
    ensures forall c :: CategoryItems(db', t.runId, t.scope, c) == CategoryItems(db, t.runId, t.scope, c)
  {
    assert Members(db', t.runId, t.scope) == Members(db, t.runId, t.scope);
    assert t.Unclassified(db') == t.Unclassified(db);
    assert t.Awaiting(db') == t.Awaiting(db);
    assert RunNewsletters(db', t.runId, t.scope) == RunNewsletters(db, t.runId, t.scope);
    assert RunClusterSummaries(db', t.userId, t.runId) == RunClusterSummaries(db, t.userId, t.runId);
    forall c ensures CategoryItems(db', t.runId, t.scope, c) == CategoryItems(db, t.runId, t.scope, c) {
    }
  }

  // ------------------------------------------------------------- main results

  /** Every productive step strictly lowers the measure. */
  lemma ProductiveLowers(t: Target, db: Db, w: Work)
    requires Productive(t, db, w)
    ensures Measure(t, ApplyWork(db, w)) < Measure(t, db)
  {
    match w
    case Classify(e, c) => ClassifyLowers(t, db, e, c);
    case Summarize(e) => SummarizeLowers(t, db, e);
    case LogCall(row) => LogCallLowers(t, db, row);
    case SummarizeCluster(k, cluster) => SummarizeClusterLowers(t, db, k, cluster);
    case WriteDigest(r, c) => WriteDigestLowers(t, db, c);
    case MarkRead(_) =>
  }

  // No counter rises, and no category becomes missing.
  ghost predicate NoneRises(t: Target, db: Db, db': Db) {
    && |t.Unclassified(db')| <= |t.Unclassified(db)| && |t.Awaiting(db')| <= |t.Awaiting(db)|
    && t.Clusters(db') <= t.Clusters(db) && forall c | c in t.Missing(db') :: c in t.Missing(db)
  }

  /** Where no counter rises neither does the measure, and if it stays the same so
      does what the run waits for. */
  lemma NoneRisesMeasure(t: Target, db: Db, db': Db)
    requires NoneRises(t, db, db')
    ensures Measure(t, db') <= Measure(t, db)
    ensures Measure(t, db') == Measure(t, db) ==>
              && |t.Unclassified(db')| == |t.Unclassified(db)| && |t.Awaiting(db')| == |t.Awaiting(db)|
              && t.Clusters(db') == t.Clusters(db) && t.Missing(db') == t.Missing(db)
  {
    hide Unclassified, AwaitingSummary, PendingClusters, CategoryMissing;
    assert MustRead in t.Missing(db') <==> CategoryMissing(db', t.runId, t.scope, MustRead);
    assert GoodToRead in t.Missing(db') <==> CategoryMissing(db', t.runId, t.scope, GoodToRead);
    assert MustRead in t.Missing(db) <==> CategoryMissing(db, t.runId, t.scope, MustRead);
    assert GoodToRead in t.Missing(db) <==> CategoryMissing(db, t.runId, t.scope, GoodToRead);
  }

  lemma MarkReadCounts(t: Target, db: Db, e: Uuid)
    ensures var db' := ApplyWork(db, MarkRead(e));
            && Members(db', t.runId, t.scope) == Members(db, t.runId, t.scope)
            && |t.Unclassified(db')| <= |t.Unclassified(db)| && |t.Awaiting(db')| <= |t.Awaiting(db)|
  {
    var db' := ApplyWork(db, MarkRead(e));
    assert Members(db', t.runId, t.scope) == Members(db, t.runId, t.scope);
    SubsetCardinality(t.Unclassified(db'), t.Unclassified(db));
    SubsetCardinality(t.Awaiting(db'), t.Awaiting(db));
  }

  lemma MarkReadClusters(t: Target, db: Db, e: Uuid)
    ensures var db' := ApplyWork(db, MarkRead(e)); t.Clusters(db') <= t.Clusters(db)
  {
    MarkReadCounts(t, db, e);
    var db' := ApplyWork(db, MarkRead(e));
    assert RunNewsletters(db', t.runId, t.scope) <= RunNewsletters(db, t.runId, t.scope);
    SubsetCardinality(RunNewsletters(db', t.runId, t.scope), RunNewsletters(db, t.runId, t.scope));
  }

  lemma MarkReadDigests(t: Target, db: Db, e: Uuid)
    ensures var db' := ApplyWork(db, MarkRead(e)); forall c | c in t.Missing(db') :: c in t.Missing(db)
  {
    MarkReadCounts(t, db, e);
    var db' := ApplyWork(db, MarkRead(e));
    forall b ensures CategoryItems(db', t.runId, t.scope, b) <= CategoryItems(db, t.runId, t.scope, b) {
    }
  }

  /** Reading mail raises no counter. */
  lemma MarkReadRaisesNothing(t: Target, db: Db, e: Uuid)
    ensures var db' := ApplyWork(db, MarkRead(e));
            NoneRises(t, db, db')
  {
    hide ApplyWork, PendingClusters, MissingCategories;
    MarkReadCounts(t, db, e);
    MarkReadClusters(t, db, e);
    MarkReadDigests(t, db, e);
  }

  // Row work that resolves nothing the run waits for: another run's mail, a summary
  // that is there already, any log row or digest, a new cluster row, a mail read.
  predicate Harmless(t: Target, db: Db, w: Work) {
    match w
    case Classify(e, _) => (t.runId, e) !in db.members
    case Summarize(e) => (t.runId, e) !in db.members || e in db.emailSummaries
    case LogCall(_) => true
    case SummarizeCluster(k, _) => k !in db.clusters
    case WriteDigest(_, _) => true
    case MarkRead(_) => true
  }

  // Work on mails the run does not own, or on summaries it already has.
  lemma OtherMailKeepsMeasure(t: Target, db: Db, w: Work)
    requires (w.Classify? || w.Summarize?) && Harmless(t, db, w)
    ensures NoneRises(t, db, ApplyWork(db, w))
  {
    var db' := ApplyWork(db, w);
    assert Members(db', t.runId, t.scope) == Members(db, t.runId, t.scope);
    assert t.Unclassified(db') == t.Unclassified(db);
    assert t.Awaiting(db') == t.Awaiting(db);
    assert RunNewsletters(db', t.runId, t.scope) == RunNewsletters(db, t.runId, t.scope);
    assert RunClusterSummaries(db', t.userId, t.runId) == RunClusterSummaries(db, t.userId, t.runId);
    forall b ensures CategoryItems(db', t.runId, t.scope, b) == CategoryItems(db, t.runId, t.scope, b) {
    }
  }

  lemma LogRaisesNothing(t: Target, db: Db, row: PromptLogRow)
    ensures NoneRises(t, db, ApplyWork(db, LogCall(row)))
  {
    var db' := ApplyWork(db, LogCall(row));
    assert Members(db', t.runId, t.scope) == Members(db, t.runId, t.scope);
    assert t.Unclassified(db') == t.Unclassified(db);
    assert RunNewsletters(db', t.runId, t.scope) == RunNewsletters(db, t.runId, t.scope);
    forall b ensures CategoryItems(db', t.runId, t.scope, b) == CategoryItems(db, t.runId, t.scope, b) {
    }
    ClusterFailedAppend(db, row, t.runId);
    forall e: Uuid ensures FatalFor(db', t.runId, e)
        <==> FatalFor(db, t.runId, e) || (FatalRow(row, t.runId) && row.emailId == Some(e)) {
      FatalForAppend(db, row, t.runId, e);
    }
    SubsetCardinality(t.Awaiting(db'), t.Awaiting(db));
  }

  lemma ClusterRaisesNothing(t: Target, db: Db, k: Uuid, cluster: Cluster)
    requires k !in db.clusters
    ensures NoneRises(t, db, ApplyWork(db, SummarizeCluster(k, cluster)))
  {
    var db' := ApplyWork(db, SummarizeCluster(k, cluster));
    assert Members(db', t.runId, t.scope) == Members(db, t.runId, t.scope);
    assert t.Unclassified(db') == t.Unclassified(db);
    assert t.Awaiting(db') == t.Awaiting(db);
    assert RunNewsletters(db', t.runId, t.scope) == RunNewsletters(db, t.runId, t.scope);
    assert RunClusterSummaries(db, t.userId, t.runId) <= RunClusterSummaries(db', t.userId, t.runId);
    forall b ensures CategoryItems(db', t.runId, t.scope, b) == CategoryItems(db, t.runId, t.scope, b) {
    }
  }

  /** Harmless work raises no counter. */
  lemma HarmlessRaisesNothing(t: Target, db: Db, w: Work)
    requires Harmless(t, db, w)
    ensures NoneRises(t, db, ApplyWork(db, w)) && Measure(t, ApplyWork(db, w)) <= Measure(t, db)
  {
    hide Measure;
    match w {
      case LogCall(row) => LogRaisesNothing(t, db, row);
      case SummarizeCluster(k, cluster) => ClusterRaisesNothing(t, db, k, cluster);
      case WriteDigest(_, _) => DigestsOnly(t, db, ApplyWork(db, w));
      case MarkRead(e) => MarkReadRaisesNothing(t, db, e);
      case _ => OtherMailKeepsMeasure(t, db, w);
    }
    NoneRisesMeasure(t, db, ApplyWork(db, w));
  }

  /** The measure is zero exactly when the snapshot waits for nothing. */
  lemma MeasureZero(t: Target, db: Db)
    ensures Measure(t, db) == 0 <==> t.Snapshot(db).PendingTotal() == 0
  {
    EmptyScopeCountsNothing(db, t.runId);
  }

  /** While the snapshot waits for something, some productive step is possible. */
  lemma WorkRemains(t: Target, db: Db) returns (w: Work)
    requires t.Snapshot(db).PendingTotal() > 0
    ensures Productive(t, db, w)
  {
    EmptyScopeCountsNothing(db, t.runId);
    if |t.Unclassified(db)| > 0 {
      var e :| e in t.Unclassified(db);
      w := Classify(e, Classification(Ignore, false));
    } else if |t.Awaiting(db)| > 0 {
      var e :| e in t.Awaiting(db);
      w := Summarize(e);
    } else if t.Clusters(db) > 0 {
      w := SummarizeCluster(0, Cluster(t.userId, Some(t.runId)));
    } else {
      w := WriteDigest(t.runId, t.Missing(db)[0]);
    }
  }

  /** Digest rows and non-fatal log rows raise no counter. */
  lemma DigestCallsRaiseNothing(t: Target, db: Db, db': Db)
    requires db' == db.(runs := db'.runs, users := db'.users, hygieneClaims := db'.hygieneClaims,
                        categoryClaims := db'.categoryClaims, categoryDigests := db'.categoryDigests,
                        promptLog := db'.promptLog)
    requires db.categoryDigests <= db'.categoryDigests && db.promptLog <= db'.promptLog
    requires forall i | |db.promptLog| <= i < |db'.promptLog| ::
               db'.promptLog[i].emailId.None? && db'.promptLog[i].promptName == Some("category_digest")
    ensures NoneRises(t, db, db')
    ensures t.Unclassified(db') == t.Unclassified(db) && t.Awaiting(db') == t.Awaiting(db)
        && t.Clusters(db') == t.Clusters(db)
  {
    assert Members(db', t.runId, t.scope) == Members(db, t.runId, t.scope);
    assert t.Unclassified(db') == t.Unclassified(db);
    forall e: Uuid ensures FatalFor(db', t.runId, e) == FatalFor(db, t.runId, e) {
      SameFatal(t, db, db', e);
    }
    assert t.Awaiting(db') == t.Awaiting(db);
    ClusterFailureKept(t, db, db');
    assert RunNewsletters(db', t.runId, t.scope) == RunNewsletters(db, t.runId, t.scope);
    assert RunClusterSummaries(db', t.userId, t.runId) == RunClusterSummaries(db, t.userId, t.runId);
    forall c ensures CategoryItems(db', t.runId, t.scope, c) == CategoryItems(db, t.runId, t.scope, c) {
    }
  }

  lemma SameFatal(t: Target, db: Db, db': Db, e: Uuid)
    requires db.promptLog <= db'.promptLog
    requires forall i | |db.promptLog| <= i < |db'.promptLog| ::
               db'.promptLog[i].emailId.None? && db'.promptLog[i].promptName == Some("category_digest")
    ensures FatalFor(db', t.runId, e) == FatalFor(db, t.runId, e)
  {
    if i :| 0 <= i < |db.promptLog| && FatalRow(db.promptLog[i], t.runId) && db.promptLog[i].emailId == Some(e) {
      assert db'.promptLog[i] == db.promptLog[i];
    }
    if i :| 0 <= i < |db'.promptLog| && FatalRow(db'.promptLog[i], t.runId) && db'.promptLog[i].emailId == Some(e) {
      assert i < |db.promptLog| && db'.promptLog[i] == db.promptLog[i];
    }
  }

  lemma ClusterFailureKept(t: Target, db: Db, db': Db)
    requires db.promptLog <= db'.promptLog
    requires forall i | |db.promptLog| <= i < |db'.promptLog| ::
               db'.promptLog[i].emailId.None? && db'.promptLog[i].promptName == Some("category_digest")
    ensures ClusterFailed(db, t.runId) <==> ClusterFailed(db', t.runId)
  {
    if i :| 0 <= i < |db'.promptLog| && ClusterFailureRow(db'.promptLog[i], t.runId) {
      assert i < |db.promptLog| && db'.promptLog[i] == db.promptLog[i];
    }
    if i :| 0 <= i < |db.promptLog| && ClusterFailureRow(db.promptLog[i], t.runId) {
      assert db'.promptLog[i] == db.promptLog[i];
    }
  }
}

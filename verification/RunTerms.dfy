/**
 What a run still owes and what its rows add up to, in the words of the tables: mail
 by mail, row by row, each condition spelled out where it is used. The counters of
 RunTables are shown to mean exactly this.
 */
module RunTerms {
  import opened PromptLog
  import opened Wrappers
  import opened RunTables

  // ------------------------------------------------------------- what is owed

  // An unread mail of the run in an account of its scope.
  ghost predicate Due(db: Db, r: Uuid, scope: seq<Uuid>, e: Uuid) {
    e in db.emails && (r, e) in db.members && db.emails[e].accountId in scope && db.emails[e].unread
  }

  predicate NeedsSummary(c: Classification) {
    c.bucket == MustRead || c.bucket == GoodToRead || c.isNewsletter
  }

  // Errors of the hygiene scorer and of a category digest do not fail a run; errors
  // of a prompt that no longer exists do.
  predicate FailsRun(row: PromptLogRow, r: Uuid) {
    && row.runId == Some(r) && row.status == CallError
    && row.promptName != Some("unsubscribe_borderline") && row.promptName != Some("category_digest")
  }

  ghost predicate GaveUp(db: Db, r: Uuid, e: Uuid) {
    exists i | 0 <= i < |db.promptLog| :: FailsRun(db.promptLog[i], r) && db.promptLog[i].emailId == Some(e)
  }

  ghost predicate AllClassified(db: Db, r: Uuid, scope: seq<Uuid>) {
    forall e | Due(db, r, scope, e) :: e in db.classifications
  }

  // Every due mail is classified, and has its summary, or a failed call in its place,
  // if it needs one.
  ghost predicate MailDone(db: Db, r: Uuid, scope: seq<Uuid>) {
    forall e | Due(db, r, scope, e) ::
      && e in db.classifications
      && (NeedsSummary(db.classifications[e]) ==> e in db.emailSummaries || GaveUp(db, r, e))
  }

  ghost predicate IsNewsletter(db: Db, r: Uuid, scope: seq<Uuid>, e: Uuid) {
    Due(db, r, scope, e) && e in db.classifications && db.classifications[e].isNewsletter
  }

  ghost predicate ClusterGaveUp(db: Db, r: Uuid) {
    exists i | 0 <= i < |db.promptLog| :: ClusterError(db.promptLog[i], r)
  }

  predicate ClusterError(row: PromptLogRow, r: Uuid) {
    && row.runId == Some(r) && row.status == CallError && row.emailId.None?
    && (row.promptName.None? || row.promptName == Some("newsletter_group"))
  }

  ghost predicate ClusterSummarized(db: Db, u: Uuid, r: Uuid) {
    exists k | k in db.clusterSummaries && k in db.clusters ::
      db.clusters[k].userId == u && db.clusters[k].runId == Some(r)
  }

  // Two different due newsletters, no cluster summary of the run, and no failed call
  // in its place.
  ghost predicate ClusterOwed(cfg: Config, db: Db, u: Uuid, r: Uuid, scope: seq<Uuid>) {
    && cfg.clusteringEnabled
    && (exists x, y :: x != y && IsNewsletter(db, r, scope, x) && IsNewsletter(db, r, scope, y))
    && !ClusterGaveUp(db, r) && !ClusterSummarized(db, u, r)
  }

  ghost predicate HasItem(db: Db, r: Uuid, scope: seq<Uuid>, c: Label) {
    exists e ::
      && Due(db, r, scope, e) && e in db.classifications && db.classifications[e].bucket == c
      && e in db.emailSummaries
  }

  // Of the two labels that have digests, one with an item and no digest.
  ghost predicate DigestOwed(db: Db, r: Uuid, scope: seq<Uuid>, c: Label) {
    (c == MustRead || c == GoodToRead) && HasItem(db, r, scope, c) && (r, c) !in db.categoryDigests
  }

  ghost predicate NothingOwed(cfg: Config, db: Db, u: Uuid, r: Uuid, scope: seq<Uuid>) {
    MailDone(db, r, scope) && !ClusterOwed(cfg, db, u, r, scope) && forall c :: !DigestOwed(db, r, scope, c)
  }

  // ------------------------------------------------------ the counters mean this

  lemma FatalMeans(row: PromptLogRow, r: Uuid)
    ensures FatalRow(row, r) <==> FailsRun(row, r)
  {
  }

  lemma FatalForMeans(db: Db, r: Uuid, e: Uuid)
    ensures FatalFor(db, r, e) <==> GaveUp(db, r, e)
  {
    hide FatalRow, FailsRun;
    forall row: PromptLogRow ensures FatalRow(row, r) <==> FailsRun(row, r) { FatalMeans(row, r); }
  }

  lemma DueMeans(db: Db, r: Uuid, scope: seq<Uuid>, e: Uuid)
    ensures e in Members(db, r, scope) && db.emails[e].unread <==> Due(db, r, scope, e)
  {
  }

  lemma NeedsMeans(c: Classification)
    ensures WantsSummary(c) <==> NeedsSummary(c)
  {
  }

  lemma ClassifiedMeans(db: Db, r: Uuid, scope: seq<Uuid>)
    ensures Unclassified(db, r, scope) == {} <==> AllClassified(db, r, scope)
  {
    if e :| e in Unclassified(db, r, scope) { assert Due(db, r, scope, e); }
    if e :| Due(db, r, scope, e) && e !in db.classifications { assert e in Unclassified(db, r, scope); }
  }

  lemma AwaitingMeans(db: Db, r: Uuid, scope: seq<Uuid>)
    ensures Unclassified(db, r, scope) == {} && AwaitingSummary(db, r, scope) == {} <==> MailDone(db, r, scope)
  {
    hide WantsSummary, NeedsSummary, FatalFor, GaveUp;
    forall e: Uuid ensures FatalFor(db, r, e) <==> GaveUp(db, r, e) { FatalForMeans(db, r, e); }
    forall c: Classification ensures WantsSummary(c) <==> NeedsSummary(c) { NeedsMeans(c); }
    if e :| e in Unclassified(db, r, scope) + AwaitingSummary(db, r, scope) { assert Due(db, r, scope, e); }
    forall e | Due(db, r, scope, e) && Unclassified(db, r, scope) == {} && AwaitingSummary(db, r, scope) == {}
      ensures e in db.classifications
      ensures NeedsSummary(db.classifications[e]) ==> e in db.emailSummaries || GaveUp(db, r, e)
    {
      assert e !in Unclassified(db, r, scope) && e !in AwaitingSummary(db, r, scope);
    }
  }

  lemma TwoMembers(s: set<Uuid>)
    ensures |s| >= 2 <==> exists x, y :: x != y && x in s && y in s
  {
    if |s| >= 2 {
      var x :| x in s;
      assert |s - {x}| >= 1;
      var y :| y in s - {x};
    }
    if x, y :| x != y && x in s && y in s {
      SubsetCardinality({x, y}, s);
      assert |{x, y}| == 2;
    }
  }

  lemma ClusterErrorMeans(db: Db, r: Uuid)
    ensures ClusterGaveUp(db, r) <==> ClusterFailed(db, r)
  {
    forall row: PromptLogRow ensures ClusterError(row, r) <==> ClusterFailureRow(row, r) {}
  }

  lemma ClusterMeans(cfg: Config, db: Db, u: Uuid, r: Uuid, scope: seq<Uuid>)
    ensures PendingClusters(cfg, db, u, r, scope) == if ClusterOwed(cfg, db, u, r, scope) then 1 else 0
  {
    TwoMembers(RunNewsletters(db, r, scope));
    forall e ensures e in RunNewsletters(db, r, scope) <==> IsNewsletter(db, r, scope, e) {}
    hide RunNewsletters, IsNewsletter;
    assert ClusterGaveUp(db, r) == ClusterFailed(db, r) by { ClusterErrorMeans(db, r); }
    if ClusterSummarized(db, u, r) {
      var k :| && k in db.clusterSummaries && k in db.clusters && db.clusters[k].userId == u
               && db.clusters[k].runId == Some(r);
      assert k in RunClusterSummaries(db, u, r);
    }
  }

  lemma DigestMeans(db: Db, r: Uuid, scope: seq<Uuid>, c: Label)
    ensures c in MissingCategories(db, r, scope) <==> DigestOwed(db, r, scope, c)
  {
    if e :| e in CategoryItems(db, r, scope, c) { assert Due(db, r, scope, e); }
    if e :| && Due(db, r, scope, e) && e in db.classifications && db.classifications[e].bucket == c
            && e in db.emailSummaries {
      assert e in CategoryItems(db, r, scope, c);
    }
  }

  lemma EmptyScopeOwesNothing(db: Db, r: Uuid)
    ensures forall e :: !Due(db, r, [], e)
  {
  }

  /** What each pending counter of a snapshot says of the tables, and that their total
      is zero exactly when nothing is owed. */
  lemma CountersMean(cfg: Config, db: Db, u: Uuid, r: Uuid, scope: seq<Uuid>)
    ensures var s := ProgressSnapshot(cfg, db, u, r, scope);
            && (s.pendingUnclassified == 0 <==> AllClassified(db, r, scope))
            && (s.pendingUnclassified == 0 && s.pendingSummaries == 0 <==> MailDone(db, r, scope))
            && (s.pendingClusters > 0 <==> ClusterOwed(cfg, db, u, r, scope))
            && (s.pendingCategories == 0 <==> forall c :: !DigestOwed(db, r, scope, c))
            && (s.PendingTotal() == 0 <==> NothingOwed(cfg, db, u, r, scope))
  {
    hide Unclassified, AwaitingSummary, PendingClusters, MissingCategories, AllClassified, MailDone, ClusterOwed,
        DigestOwed;
    ClassifiedMeans(db, r, scope);
    AwaitingMeans(db, r, scope);
    ClusterMeans(cfg, db, u, r, scope);
    forall c ensures c in MissingCategories(db, r, scope) <==> DigestOwed(db, r, scope, c) {
      DigestMeans(db, r, scope, c);
    }
    if MissingCategories(db, r,
                         scope) != [] { assert MissingCategories(db, r, scope)[0] in MissingCategories(db, r, scope); }
    EmptyScopeCountsNothing(db, r);
    if scope == [] { EmptyScopeNoCluster(cfg, db, u, r); }
  }

  lemma EmptyScopeNoCluster(cfg: Config, db: Db, u: Uuid, r: Uuid)
    ensures PendingClusters(cfg, db, u, r, []) == 0
  {
    EmptyScopeCountsNothing(db, r);
  }

  // ------------------------------------------------------------ what was counted

  // The sums of the costs of the run's log rows, one after each row.
  ghost predicate AddUp(log: seq<PromptLogRow>, r: Uuid, sums: seq<nat>) {
    && |sums| == |log| + 1 && sums[0] == 0
    && forall i | 0 <= i < |log| ::
         sums[i + 1] == sums[i] + (if log[i].runId == Some(r) then log[i].costMicros else 0)
  }

  lemma {:induction false} CostsAddUp(log: seq<PromptLogRow>, r: Uuid) returns (sums: seq<nat>)
    ensures AddUp(log, r, sums) && sums[|log|] == CostMicros(log, r)
  {
    if log == [] {
      sums := [0];
    } else {
      var n := |log| - 1;
      var front := CostsAddUp(log[..n], r);
      sums := front + [CostMicros(log, r)];
      forall i | 0 <= i < |log|
        ensures sums[i + 1] == sums[i] + (if log[i].runId == Some(r) then log[i].costMicros else 0)
      {
        if i < n { assert log[..n][i] == log[i] && front[i + 1] == sums[i + 1]; }
      }
    }
  }

  // The run's cost in cents: the nearest to its micro-dollars, a half counting up.
  ghost predicate IsCost(log: seq<PromptLogRow>, r: Uuid, cents: int) {
    exists sums :: AddUp(log, r, sums) && 10_000 * cents - 5_000 <= sums[|log|] < 10_000 * cents + 5_000
  }

  lemma CostMeans(log: seq<PromptLogRow>, r: Uuid)
    ensures IsCost(log, r, CostCents(log, r))
  {
    hide AddUp;
    var sums := CostsAddUp(log, r);
  }

  // The five numbers a run shows, as counts of rows.
  ghost predicate IsCount(cfg: Config, db: Db, u: Uuid, r: Uuid, scope: seq<Uuid>, s: Snapshot) {
    var mails := set e | e in db.emails && (r, e) in db.members && db.emails[e].accountId in scope;
    if scope == [] then s.ingested == s.classified == s.summarized == s.newMustRead == 0
    else
      && s.ingested == |mails|
      && s.classified == |set e | e in mails && e in db.classifications|
      && s.newMustRead == |set e | e in mails && e in db.classifications && db.classifications[e].bucket == MustRead|
      && s.summarized == |set e | e in mails && e in db.emailSummaries|
                       + |set k | k in db.clusterSummaries && k in db.clusters && db.clusters[k].userId == u
                                  && db.clusters[k].runId == Some(r)|
  }

  lemma CountMeans(cfg: Config, db: Db, u: Uuid, r: Uuid, scope: seq<Uuid>)
    ensures IsCount(cfg, db, u, r, scope, ProgressSnapshot(cfg, db, u, r, scope))
  {
    var mails := set e | e in db.emails && (r, e) in db.members && db.emails[e].accountId in scope;
    assert mails == Members(db, r, scope);
    assert (set e | e in mails && e in db.classifications) == ClassifiedMembers(db, r, scope);
    assert (set e | e in mails && e in db.classifications && db.classifications[e].bucket == MustRead)
        == MustReadMembers(db, r, scope);
    assert (set e | e in mails && e in db.emailSummaries) == SummarizedMembers(db, r, scope);
    assert (set k | k in db.clusterSummaries && k in db.clusters && db.clusters[k].userId == u
                    && db.clusters[k].runId == Some(r)) == RunClusterSummaries(db, u, r);
  }
}

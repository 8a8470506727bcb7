/**
 What one finalize call does, told by its effect on the tables and the queue
 rather than by its steps.
 */
module RunFinalizeLaws {
  import opened Wrappers
  import opened RunTables
  import opened RunService

  // ------------------------------------------------------------------ dispatch

  // Only claims, digests and the log may differ, and the rows added to the log
  // are those of digest calls, which are never fatal.
  ghost predicate DispatchFrame(db: Db, db': Db) {
    && db' == db.(runs := db'.runs, categoryClaims := db'.categoryClaims,
                  categoryDigests := db'.categoryDigests, promptLog := db'.promptLog)
    && db.categoryClaims <= db'.categoryClaims && db.categoryDigests <= db'.categoryDigests
    && db.promptLog <= db'.promptLog
    && forall i | |db.promptLog| <= i < |db'.promptLog| ::
         db'.promptLog[i].emailId.None? && db'.promptLog[i].promptName == Some("category_digest")
  }

  lemma FrameTransitive(a: Db, b: Db, c: Db)
    requires DispatchFrame(a, b) && DispatchFrame(b, c)
    ensures DispatchFrame(a, c)
  {
    forall i | |a.promptLog| <= i < |c.promptLog|
      ensures c.promptLog[i].emailId.None? && c.promptLog[i].promptName == Some("category_digest")
    {
      if i < |b.promptLog| { assert b.promptLog[i] == c.promptLog[i]; }
    }
  }

  lemma CategoryStep(db: Db, runId: Uuid, category: Label, ports: Ports, now: int)
    ensures var d := DispatchCategory(db, runId, category, ports, now);
            && DispatchFrame(db, d.db) && d.db.runs == db.runs
            && d.db.categoryClaims <= db.categoryClaims + {(runId, category)}
            && d.db.categoryDigests <= db.categoryDigests + {(runId, category)}
            && (d.sent == [] || (d.sent == [CategoryMessage(runId, category)]
                    && (runId, category) !in db.categoryClaims && (runId, category) in d.db.categoryClaims))
            && (!d.built ==> d.db.categoryDigests == db.categoryDigests && d.db.promptLog == db.promptLog)
            && (ports.categorySender ==> !d.built) && (!ports.categorySender ==> d.sent == [])
            && (ports.categorySender && !d.raised && d.sent == [] ==> d.db.categoryClaims == db.categoryClaims)
  {
  }

  // The (run, category) pairs of the category messages in a list.
  function SentPairs(ms: seq<Message>): set<(Uuid, Label)> {
    set m | m in ms && m.CategoryMessage? :: (m.runId, m.category)
  }

  /** Messages leave for distinct, formerly unclaimed categories that were asked
      for; with a queue sender the claims gained are exactly those messages. */
  lemma {:induction false} CategoriesDispatched(db: Db, runId: Uuid, missing: seq<Label>, ports: Ports, now: int)
    requires forall i, j | 0 <= i < j < |missing| :: missing[i] != missing[j]
    ensures var d := DispatchCategories(db, runId, missing, ports, now);
            && DispatchFrame(db, d.db)
            && (forall m | m in d.sent :: m.CategoryMessage? && m.runId == runId && m.category in missing
                                          && (runId, m.category) !in db.categoryClaims
                                             && (runId, m.category) in d.db.categoryClaims)
            && (forall i, j | 0 <= i < j < |d.sent| :: d.sent[i] != d.sent[j])
            && (forall p | p in d.db.categoryClaims - db.categoryClaims :: p.0 == runId && p.1 in missing)
            && (forall p | p in d.db.categoryDigests - db.categoryDigests :: p.0 == runId && p.1 in missing)
            && (!d.built ==> d.db.categoryDigests == db.categoryDigests && d.db.promptLog == db.promptLog)
            && (ports.categorySender ==> !d.built) && (!ports.categorySender ==> d.sent == [])
            && (ports.categorySender && !d.raised ==> d.db.categoryClaims == db.categoryClaims + SentPairs(d.sent))
    decreases |missing|
  {
    hide DispatchCategory;
    if missing == [] {
      assert SentPairs([]) == {};
      return;
    }
    var head := DispatchCategory(db, runId, missing[0], ports, now);
    CategoryStep(db, runId, missing[0], ports, now);
    if head.raised { return; }
    CategoriesDispatched(head.db, runId, missing[1..], ports, now);
    var rest := DispatchCategories(head.db, runId, missing[1..], ports, now);
    FrameTransitive(db, head.db, rest.db);
    assert SentPairs(head.sent + rest.sent) == SentPairs(head.sent) + SentPairs(rest.sent);
    if head.sent == [] {
      assert SentPairs(head.sent) == {};
    } else {
      assert head.sent[0] == CategoryMessage(runId, missing[0]) && missing[0] !in missing[1..];
      assert SentPairs(head.sent) == {(runId, missing[0])};
    }
  }

  // What may have left the process when a whole call's dispatch is over.
  ghost predicate RightlySent(db: Db, db': Db, userId: Uuid, runId: Uuid, scope: seq<Uuid>, s: Snapshot,
      newest: seq<Uuid>, ports: Ports, m: Message) {
    match m
    case ClusterMessage(u, r, ids) =>
      && u == userId && r == runId && ids == newest
      && ports.clusterSender && WantsCluster(s) && |newest| >= MIN_CLUSTER_NEWSLETTERS
      && !Claimed(db, ClusterClaim(r)) && Claimed(db', ClusterClaim(r))
    case CategoryMessage(r, c) =>
      && r == runId && WantsDigests(s) && c in MissingCategories(db, runId, scope)
      && !Claimed(db, CategoryClaim(r, c)) && Claimed(db', CategoryClaim(r, c))
    case _ => false
  }

  // A run row with at most its cluster claim newly stamped.
  predicate ClaimOnly(run: Run, run': Run) {
    run' == run || (run.clusterEnqueuedAt.None? && run' == run.(clusterEnqueuedAt := run'.clusterEnqueuedAt)
                    && run'.clusterEnqueuedAt.Some?)
  }

  lemma ClusterStep(db: Db, userId: Uuid, runId: Uuid, scope: seq<Uuid>, newest: seq<Uuid>, ports: Ports, now: int)
    requires runId in db.runs
    ensures var d := DispatchCluster(db, userId, runId, newest, ports, now);
            && d.db == db.(runs := db.runs[runId := d.db.runs[runId]])
            && ClaimOnly(db.runs[runId], d.db.runs[runId]) && !d.built
            && (d.sent == [] || (d.sent == [ClusterMessage(userId, runId, newest)] && ports.clusterSender
                                 && |newest| >= MIN_CLUSTER_NEWSLETTERS
                                 && db.runs[runId].clusterEnqueuedAt.None? && d.db.runs[runId].clusterEnqueuedAt.Some?))
            && (!d.raised && d.sent == [] ==> d.db == db)
            && MissingCategories(d.db, runId, scope) == MissingCategories(db, runId, scope)
  {
    var d := DispatchCluster(db, userId, runId, newest, ports, now);
    assert db.runs == db.runs[runId := db.runs[runId]];
    SameItems(db, d.db, runId, scope);
  }

  // Run rows, user rows and claims take no part in any count.
  lemma SameItems(db: Db, db': Db, runId: Uuid, scope: seq<Uuid>)
    requires db' == db.(runs := db'.runs, users := db'.users, hygieneClaims := db'.hygieneClaims,
                        categoryClaims := db'.categoryClaims)
    ensures MissingCategories(db', runId, scope) == MissingCategories(db, runId, scope)
  {
    assert Members(db', runId, scope) == Members(db, runId, scope);
    forall c ensures CategoryItems(db', runId, scope, c) == CategoryItems(db, runId, scope, c) {
    }
  }

  lemma SameSnapshot(cfg: Config, db: Db, db': Db, userId: Uuid, runId: Uuid, scope: seq<Uuid>)
    requires db' == db.(runs := db'.runs, users := db'.users, hygieneClaims := db'.hygieneClaims,
                        categoryClaims := db'.categoryClaims)
    ensures ProgressSnapshot(cfg, db', userId, runId, scope) == ProgressSnapshot(cfg, db, userId, runId, scope)
  {
    SameItems(db, db', runId, scope);
    assert Members(db', runId, scope) == Members(db, runId, scope);
    assert ClassifiedMembers(db', runId, scope) == ClassifiedMembers(db, runId, scope);
    assert MustReadMembers(db', runId, scope) == MustReadMembers(db, runId, scope);
    assert SummarizedMembers(db', runId, scope) == SummarizedMembers(db, runId, scope);
    assert RunClusterSummaries(db', userId, runId) == RunClusterSummaries(db, userId, runId);
    assert Unclassified(db', runId, scope) == Unclassified(db, runId, scope);
    assert AwaitingSummary(db', runId, scope) == AwaitingSummary(db, runId, scope);
    assert RunNewsletters(db', runId, scope) == RunNewsletters(db, runId, scope);
  }

  lemma MissingDistinct(db: Db, runId: Uuid, scope: seq<Uuid>)
    ensures forall i, j | 0 <= i < j < |MissingCategories(db, runId, scope)| ::
              MissingCategories(db, runId, scope)[i] != MissingCategories(db, runId, scope)[j]
  {
  }

  lemma EverythingDispatched(db: Db, userId: Uuid, runId: Uuid, scope: seq<Uuid>, s: Snapshot, newest: seq<Uuid>,
      ports: Ports, now: int)
    requires runId in db.runs
    ensures var d := DispatchAll(db, userId, runId, scope, s, newest, ports, now);
            && DispatchFrame(db, d.db)
            && d.db.runs == db.runs[runId := d.db.runs[runId]] && ClaimOnly(db.runs[runId], d.db.runs[runId])
            && (forall m | m in d.sent :: RightlySent(db, d.db, userId, runId, scope, s, newest, ports, m))
            && (forall i, j | 0 <= i < j < |d.sent| :: d.sent[i] != d.sent[j])
            && (!d.built ==> d.db.categoryDigests == db.categoryDigests && d.db.promptLog == db.promptLog)
            && (forall p | p in d.db.categoryDigests - db.categoryDigests ::
                p.0 == runId && p.1 in MissingCategories(db, runId, scope))
            && (!ports.categorySender ==> forall m | m in d.sent :: m.ClusterMessage?)
            && (ports.categorySender && !d.raised ==> d.db.categoryClaims == db.categoryClaims + SentPairs(d.sent))
            && (!d.raised && d.db.runs != db.runs ==> ClusterMessage(userId, runId, newest) in d.sent)
  {
    hide DispatchCluster, DispatchCategories, MissingCategories;
    var d1 := if WantsCluster(s) then DispatchCluster(db, userId, runId, newest, ports, now)
      else Dispatch(db, [], false, false);
    ClusterStep(db, userId, runId, scope, newest, ports, now);
    assert db.runs == db.runs[runId := db.runs[runId]];
    if d1.sent == [] {
      assert SentPairs(d1.sent) == {};
    } else {
      assert d1.sent == [ClusterMessage(userId, runId, newest)];
      assert ClusterMessage(userId, runId, newest) in d1.sent;
      assert SentPairs(d1.sent) == {};
    }
    if d1.raised || !WantsDigests(s) { return; }
    var missing := MissingCategories(d1.db, runId, scope);
    MissingDistinct(d1.db, runId, scope);
    CategoriesDispatched(d1.db, runId, missing, ports, now);
    var d2 := DispatchCategories(d1.db, runId, missing, ports, now);
    FrameTransitive(db, d1.db, d2.db);
    assert SentPairs(d1.sent + d2.sent) == SentPairs(d1.sent) + SentPairs(d2.sent);
  }

  // -------------------------------------------------------------- stats payload

  lemma {:induction false} ParsePrinted(cfg: Config, ids: seq<Uuid>)
    requires cfg.Lawful()
    ensures ParseIds(cfg, PrintIds(cfg, ids)) == ids
  {
    if ids != [] {
      var items := PrintIds(cfg, ids);
      assert items[0] == JStr(cfg.printUuid(ids[0]));
      assert items[1..] == PrintIds(cfg, ids[1..]);
      ParsePrinted(cfg, ids[1..]);
      assert [ids[0]] + ids[1..] == ids;
    }
  }

  const PUBLIC_KEYS: set<string> := {"ingested", "classified", "summarized", "new_must_read", "account_ids"}

  // The public counters in `stats` are those of a snapshot.
  predicate Counted(stats: Json, s: Snapshot) {
    && stats.JObject? && PUBLIC_KEYS <= stats.fields.Keys
    && stats.fields["ingested"] == JInt(s.ingested) && stats.fields["classified"] == JInt(s.classified)
    && stats.fields["summarized"] == JInt(s.summarized) && stats.fields["new_must_read"] == JInt(s.newMustRead)
  }

  // Every key that is not the payload's own keeps its value, or its absence.
  ghost predicate OtherKeysKept(before: Json, after: Json) {
    before.JObject? ==>
      && after.JObject?
      && forall k | k !in PUBLIC_KEYS ::
           (k in after.fields <==> k in before.fields) && (k in before.fields ==> after.fields[k] == before.fields[k])
  }

  lemma OtherKeysTransitive(a: Json, b: Json, c: Json)
    requires OtherKeysKept(a, b) && OtherKeysKept(b, c)
    ensures OtherKeysKept(a, c)
  {
  }

  /** The scope written into `stats` is the scope read back, and every key the
      payload does not own survives with its value. */
  lemma StatsRoundTrip(cfg: Config, stats: Json, scope: seq<Uuid>, s: Snapshot)
    requires cfg.Lawful()
    ensures var w := StatsPayload(cfg, stats, scope, s);
            && AccountIdsFromStats(cfg, w) == scope
            && w.JObject? && Counted(w, s)
            && OtherKeysKept(stats, w)
  {
    ParsePrinted(cfg, scope);
  }

  // ------------------------------------------------------------------- finalize

  predicate HasFatal(db: Db, runId: Uuid) {
    exists i | 0 <= i < |db.promptLog| :: FatalRow(db.promptLog[i], runId)
  }

  // The tables one call leaves behind, seen from outside.
  ghost predicate Finalized(cfg: Config, db: Db, db': Db, userId: Uuid, runId: Uuid, scope: seq<Uuid>, finished: bool,
      now: int) {
    && runId in db.runs && runId in db'.runs
    && db' == db.(runs := db.runs[runId := db'.runs[runId]], users := db'.users, categoryClaims := db'.categoryClaims,
                  categoryDigests := db'.categoryDigests, promptLog := db'.promptLog)
    && (var run, run' := db.runs[runId], db'.runs[runId];
        && run'.userId == run.userId
        && (run.clusterEnqueuedAt.Some? ==> run'.clusterEnqueuedAt == run.clusterEnqueuedAt)
        && AccountIdsFromStats(cfg, run'.stats) == scope
        && Counted(run'.stats, ProgressSnapshot(cfg, db', userId, runId, scope))
        && OtherKeysKept(run.stats, run'.stats)
        && run'.costCents == Some(CostCents(db'.promptLog, runId))
        && run'.status == (if !finished then Running else if HasFatal(db', runId) then Failed else Complete)
        && run'.completedAt == (if finished then Some(now) else run.completedAt)
        && run'.error == (if !finished then run.error else if HasFatal(db', runId) then Some(FAILED_RUN_ERROR)
                          else None)
        && db'.users == if finished then ClearUserLock(db, userId, runId, run'.status == Complete, now).users
           else db.users)
  }

  lemma SnapshotOfLog(cfg: Config, db: Db, userId: Uuid, runId: Uuid, scope: seq<Uuid>)
    ensures var s := ProgressSnapshot(cfg, db, userId, runId, scope);
            && (s.promptErrors > 0 <==> HasFatal(db, runId)) && s.costCents == CostCents(db.promptLog, runId)
  {
    PromptErrorsPositive(db.promptLog, runId);
  }

  // The closing writes, row by row.
  lemma ConcludeRows(cfg: Config, db: Db, userId: Uuid, runId: Uuid, scope: seq<Uuid>, s: Snapshot, now: int)
    requires runId in db.runs
    ensures var db' := Conclude(cfg, db, userId, runId, scope, s, now);
            var ended := s.PendingTotal() == 0;
            && db' == db.(runs := db'.runs, users := db'.users) && runId in db'.runs
            && db'.runs == db.runs[runId := db'.runs[runId]]
            && db'.runs[runId] == db.runs[runId].(
                 stats := StatsPayload(cfg, db.runs[runId].stats, scope, s), costCents := Some(s.costCents),
                 status := if !ended then db.runs[runId].status else if s.promptErrors > 0 then Failed else Complete,
                 completedAt := if ended then Some(now) else db.runs[runId].completedAt,
                 error := if !ended then db.runs[runId].error else if s.promptErrors > 0 then Some(FAILED_RUN_ERROR)
                     else None)
            && db'.users == if ended then ClearUserLock(db, userId, runId, s.promptErrors == 0, now).users else db.users
  {
    hide StatsPayload;
  }

  lemma ConcludeEffect(cfg: Config, db: Db, userId: Uuid, runId: Uuid, scope: seq<Uuid>, s: Snapshot, now: int)
    requires cfg.Lawful() && runId in db.runs && s == ProgressSnapshot(cfg, db, userId, runId, scope)
    requires db.runs[runId].status == Running
    ensures var db' := Conclude(cfg, db, userId, runId, scope, s, now);
            && Finalized(cfg, db, db', userId, runId, scope, s.PendingTotal() == 0, now)
            && ProgressSnapshot(cfg, db', userId, runId, scope) == s
            && db'.promptLog == db.promptLog && db'.categoryDigests == db.categoryDigests
               && db'.categoryClaims == db.categoryClaims
            && db'.runs[runId].clusterEnqueuedAt == db.runs[runId].clusterEnqueuedAt
  {
    hide Conclude, ProgressSnapshot, StatsPayload, AccountIdsFromStats, CostCents, HasFatal, Counted, OtherKeysKept,
        ClearUserLock;
    var db' := Conclude(cfg, db, userId, runId, scope, s, now);
    ConcludeRows(cfg, db, userId, runId, scope, s, now);
    StatsRoundTrip(cfg, db.runs[runId].stats, scope, s);
    SameSnapshot(cfg, db, db', userId, runId, scope);
    SnapshotOfLog(cfg, db, userId, runId, scope);
    SnapshotOfLog(cfg, db', userId, runId, scope);
  }

  // What one call on a live run sees before it writes anything.
  function CallScope(cfg: Config, db: Db, runId: Uuid, ans: Answers): seq<Uuid>
    requires runId in db.runs
  {
    AccountScope(cfg, db, runId, ans.accountRows)
  }

  lemma PrepareEffect(cfg: Config, db: Db, userId: Uuid, runId: Uuid, scope: seq<Uuid>, s: Snapshot)
    requires cfg.Lawful() && Live(db, userId, runId)
    ensures var p := Prepare(cfg, db, runId, scope, s);
            && p == db.(runs := db.runs[runId := p.runs[runId]])
            && p.runs[runId] == db.runs[runId].(status := Running, stats := p.runs[runId].stats,
                                                costCents := p.runs[runId].costCents)
            && OtherKeysKept(db.runs[runId].stats, p.runs[runId].stats)
            && MissingCategories(p, runId, scope) == MissingCategories(db, runId, scope)
  {
    hide StatsPayload, MissingCategories, OtherKeysKept, AccountIdsFromStats, Counted;
    StatsRoundTrip(cfg, db.runs[runId].stats, scope, s);
    SameItems(db, Prepare(cfg, db, runId, scope, s), runId, scope);
  }

  lemma FinalizeMessages(cfg: Config, db: Db, userId: Uuid, runId: Uuid, ports: Ports, ans: Answers, now: int)
    requires cfg.Lawful() && Live(db, userId, runId)
    ensures var scope := CallScope(cfg, db, runId, ans);
            var s := ProgressSnapshot(cfg, db, userId, runId, scope);
            var prepared := Prepare(cfg, db, runId, scope, s);
            var d := DispatchAll(prepared, userId, runId, scope, s, ans.newest, ports, now);
            && d.sent == FinalizeCall(cfg, db, userId, Some(runId), ports, ans, now).sent
            && DispatchFrame(prepared, d.db) && prepared == db.(runs := db.runs[runId := prepared.runs[runId]])
            && OtherKeysKept(db.runs[runId].stats, prepared.runs[runId].stats)
            && prepared.runs[runId].status == Running && prepared.runs[runId].userId == db.runs[runId].userId
            && prepared.runs[runId].clusterEnqueuedAt == db.runs[runId].clusterEnqueuedAt
            && prepared.runs[runId].completedAt == db.runs[runId].completedAt
               && prepared.runs[runId].error == db.runs[runId].error
            && d.db.runs == prepared.runs[runId := d.db.runs[runId]]
               && ClaimOnly(prepared.runs[runId], d.db.runs[runId])
            && (forall m | m in d.sent :: RightlySent(db, d.db, userId, runId, scope, s, ans.newest, ports, m))
            && (forall i, j | 0 <= i < j < |d.sent| :: d.sent[i] != d.sent[j])
            && (!d.built ==> d.db.categoryDigests == db.categoryDigests && d.db.promptLog == db.promptLog)
            && (forall p | p in d.db.categoryDigests - db.categoryDigests ::
                p.0 == runId && p.1 in MissingCategories(db, runId, scope))
            && (!ports.categorySender ==> forall m | m in d.sent :: m.ClusterMessage?)
            && (ports.categorySender && !d.raised ==> d.db.categoryClaims == db.categoryClaims + SentPairs(d.sent))
            && (!d.raised && d.db.runs[runId].clusterEnqueuedAt != db.runs[runId].clusterEnqueuedAt ==>
                  ClusterMessage(userId, runId, ans.newest) in d.sent)
  {
    hide ProgressSnapshot, Prepare, MissingCategories, DispatchAll, OtherKeysKept;
    var scope := CallScope(cfg, db, runId, ans);
    var s := ProgressSnapshot(cfg, db, userId, runId, scope);
    var prepared := Prepare(cfg, db, runId, scope, s);
    EverythingDispatched(prepared, userId, runId, scope, s, ans.newest, ports, now);
    PrepareEffect(cfg, db, userId, runId, scope, s);
  }

  // The part of RightlySent that speaks of the tables before the call.
  ghost predicate SentFor(db: Db, userId: Uuid, runId: Uuid, scope: seq<Uuid>, s: Snapshot, newest: seq<Uuid>,
      ports: Ports, m: Message) {
    match m
    case ClusterMessage(u, r, ids) =>
      && u == userId && r == runId && ids == newest && ports.clusterSender && WantsCluster(s)
      && |newest| >= MIN_CLUSTER_NEWSLETTERS && !Claimed(db, ClusterClaim(r))
    case CategoryMessage(r, c) =>
      r == runId && WantsDigests(s) && c in MissingCategories(db, runId, scope) && !Claimed(db, CategoryClaim(r, c))
    case _ => false
  }

  lemma MessagesSentFor(cfg: Config, db: Db, userId: Uuid, runId: Uuid, ports: Ports, ans: Answers, now: int)
    requires cfg.Lawful() && Live(db, userId, runId)
    ensures var scope := CallScope(cfg, db, runId, ans);
            var s := ProgressSnapshot(cfg, db, userId, runId, scope);
            forall m | m in FinalizeCall(cfg, db, userId, Some(runId), ports, ans, now).sent ::
              SentFor(db, userId, runId, scope, s, ans.newest, ports, m)
  {
    hide FinalizeCall, ProgressSnapshot, MissingCategories, DispatchAll, Prepare;
    FinalizeMessages(cfg, db, userId, runId, ports, ans, now);
  }

  // The dispatch a call on a live run makes.
  function CallDispatch(cfg: Config, db: Db, userId: Uuid, runId: Uuid, ports: Ports, ans: Answers, now: int): Dispatch
    requires runId in db.runs
  {
    var scope := CallScope(cfg, db, runId, ans);
    var s := ProgressSnapshot(cfg, db, userId, runId, scope);
    DispatchAll(Prepare(cfg, db, runId, scope, s), userId, runId, scope, s, ans.newest, ports, now)
  }

  // What dispatch leaves of the run it works for.
  ghost predicate DispatchedOnly(db: Db, mid: Db, runId: Uuid) {
    && runId in db.runs && runId in mid.runs
    && mid == db.(runs := db.runs[runId := mid.runs[runId]], categoryClaims := mid.categoryClaims,
                  categoryDigests := mid.categoryDigests, promptLog := mid.promptLog)
    && (var run, run' := db.runs[runId], mid.runs[runId];
        && run'.userId == run.userId && run'.completedAt == run.completedAt && run'.error == run.error
        && (run.clusterEnqueuedAt.Some? ==> run'.clusterEnqueuedAt == run.clusterEnqueuedAt)
        && OtherKeysKept(run.stats, run'.stats))
  }

  // The closing writes seen from before the dispatch.
  lemma FinalizedThrough(cfg: Config, db: Db, mid: Db, db': Db, userId: Uuid, runId: Uuid, scope: seq<Uuid>,
      finished: bool, now: int)
    requires DispatchedOnly(db, mid, runId) && Finalized(cfg, mid, db', userId, runId, scope, finished, now)
    ensures Finalized(cfg, db, db', userId, runId, scope, finished, now)
  {
    hide OtherKeysKept, Counted, ProgressSnapshot, HasFatal, CostCents, AccountIdsFromStats;
    OtherKeysTransitive(db.runs[runId].stats, mid.runs[runId].stats, db'.runs[runId].stats);
    assert db'.runs == db.runs[runId := db'.runs[runId]];
  }

  lemma DispatchEffect(cfg: Config, db: Db, userId: Uuid, runId: Uuid, ports: Ports, ans: Answers, now: int)
    requires cfg.Lawful() && Live(db, userId, runId)
    ensures var d := CallDispatch(cfg, db, userId, runId, ports, ans, now);
            DispatchedOnly(db, d.db, runId) && d.db.runs[runId].status == Running
  {
    hide ProgressSnapshot, DispatchAll, Prepare, MissingCategories, RightlySent, SentPairs, OtherKeysKept;
    FinalizeMessages(cfg, db, userId, runId, ports, ans, now);
  }

  // A call that is not interrupted closes with the snapshot of what dispatch left.
  lemma ClosesAfterDispatch(cfg: Config, db: Db, userId: Uuid, runId: Uuid, ports: Ports, ans: Answers, now: int)
      returns (last: Snapshot)
    requires cfg.Lawful() && Live(db, userId, runId)
    ensures var o, d := FinalizeCall(cfg, db, userId, Some(runId), ports, ans, now),
        CallDispatch(cfg, db, userId, runId, ports, ans, now);
            var scope := CallScope(cfg, db, runId, ans);
            && runId in d.db.runs && o.raised == d.raised
            && (!d.raised ==> last == ProgressSnapshot(cfg, d.db, userId, runId, scope)
                              && o.db == Conclude(cfg, d.db, userId, runId, scope, last, now)
                              && o.finished == (last.PendingTotal() == 0))
  {
    hide ProgressSnapshot, DispatchAll, Prepare, Conclude, RightlySent, SentPairs, MissingCategories, OtherKeysKept;
    FinalizeMessages(cfg, db, userId, runId, ports, ans, now);
    var scope := CallScope(cfg, db, runId, ans);
    var s := ProgressSnapshot(cfg, db, userId, runId, scope);
    var d := CallDispatch(cfg, db, userId, runId, ports, ans, now);
    last := if d.built then ProgressSnapshot(cfg, d.db, userId, runId, scope) else s;
    if !d.built && !d.raised { SameSnapshot(cfg, db, d.db, userId, runId, scope); }
  }

  // A committed call's last writes leave the dispatch's claims as they are.
  lemma ClaimsSettled(cfg: Config, db: Db, userId: Uuid, runId: Uuid, ports: Ports, ans: Answers, now: int)
    requires cfg.Lawful() && Live(db, userId, runId)
    requires !FinalizeCall(cfg, db, userId, Some(runId), ports, ans, now).raised
    ensures var o, d := FinalizeCall(cfg, db, userId, Some(runId), ports, ans, now),
        CallDispatch(cfg, db, userId, runId, ports, ans, now);
            && o.sent == d.sent && o.db.hygieneClaims == db.hygieneClaims && o.db.categoryClaims == d.db.categoryClaims
            && runId in o.db.runs && runId in d.db.runs
            && o.db.runs == db.runs[runId := o.db.runs[runId]]
            && o.db.runs[runId].clusterEnqueuedAt == d.db.runs[runId].clusterEnqueuedAt
  {
    hide FinalizeCall, CallDispatch, Conclude, ProgressSnapshot;
    var last := ClosesAfterDispatch(cfg, db, userId, runId, ports, ans, now);
    var d := CallDispatch(cfg, db, userId, runId, ports, ans, now);
    DispatchEffect(cfg, db, userId, runId, ports, ans, now);
    ConcludeRows(cfg, d.db, userId, runId, CallScope(cfg, db, runId, ans), last, now);
    SentByDispatch(cfg, db, userId, runId, ports, ans, now);
  }

  lemma SentByDispatch(cfg: Config, db: Db, userId: Uuid, runId: Uuid, ports: Ports, ans: Answers, now: int)
    requires Live(db, userId, runId)
    ensures FinalizeCall(cfg, db, userId, Some(runId), ports, ans, now).sent
        == CallDispatch(cfg, db, userId, runId, ports, ans, now).sent
  {
    hide ProgressSnapshot, DispatchAll, Prepare, Conclude;
  }

  /** One call on a live run: what it leaves in every table, and that it ends the
      run exactly when the tables it leaves wait for nothing. */
  lemma FinalizeEffect(cfg: Config, db: Db, userId: Uuid, runId: Uuid, ports: Ports, ans: Answers, now: int)
    requires cfg.Lawful() && Live(db, userId, runId)
    ensures var o := FinalizeCall(cfg, db, userId, Some(runId), ports, ans, now);
            var scope := CallScope(cfg, db, runId, ans);
            !o.raised ==>
              && Finalized(cfg, db, o.db, userId, runId, scope, o.finished, now)
              && (o.finished <==> ProgressSnapshot(cfg, o.db, userId, runId, scope).PendingTotal() == 0)
              && DispatchFrame(db.(runs := o.db.runs, users := o.db.users), o.db)
  {
    hide FinalizeCall, CallDispatch, Conclude, DispatchedOnly, Finalized, ProgressSnapshot;
    var o := FinalizeCall(cfg, db, userId, Some(runId), ports, ans, now);
    var last := ClosesAfterDispatch(cfg, db, userId, runId, ports, ans, now);
    if !o.raised {
      var scope, d := CallScope(cfg, db, runId, ans), CallDispatch(cfg, db, userId, runId, ports, ans, now);
      DispatchEffect(cfg, db, userId, runId, ports, ans, now);
      ConcludeEffect(cfg, d.db, userId, runId, scope, last, now);
      FinalizedThrough(cfg, db, d.db, o.db, userId, runId, scope, o.finished, now);
      ConcludeRows(cfg, d.db, userId, runId, scope, last, now);
      FramedThrough(cfg, db, userId, runId, ports, ans, now, o.db);
    }
  }

  lemma FramedThrough(cfg: Config, db: Db, userId: Uuid, runId: Uuid, ports: Ports, ans: Answers, now: int, db': Db)
    requires cfg.Lawful() && Live(db, userId, runId)
    requires var d := CallDispatch(cfg, db, userId, runId, ports, ans, now);
             db' == d.db.(runs := db'.runs, users := db'.users)
    ensures DispatchFrame(db.(runs := db'.runs, users := db'.users), db')
  {
    hide ProgressSnapshot, DispatchAll, Prepare, MissingCategories, RightlySent, SentPairs, OtherKeysKept;
    FinalizeMessages(cfg, db, userId, runId, ports, ans, now);
  }

  /** On a run that is missing, someone else's or already terminal nothing changes. */
  lemma FinalizeIgnores(cfg: Config, db: Db, userId: Uuid, runId: Option<Uuid>, ports: Ports, ans: Answers, now: int)
    ensures runId.None? || !Live(db, userId, runId.value) ==>
              FinalizeCall(cfg, db, userId, runId, ports, ans, now) == Outcome(db, [], false, false)
  {
  }

  /** After a committed call every message's claim is taken. */
  lemma SentIsClaimed(cfg: Config, db: Db, userId: Uuid, runId: Uuid, ports: Ports, ans: Answers, now: int, m: Message)
    requires cfg.Lawful() && Live(db, userId, runId)
    requires var o := FinalizeCall(cfg, db, userId, Some(runId), ports, ans, now); !o.raised && m in o.sent
    ensures var o := FinalizeCall(cfg, db, userId, Some(runId), ports, ans, now);
            KeyOf(m).Some? && Claimed(o.db, KeyOf(m).value)
  {
    hide FinalizeCall, ProgressSnapshot, DispatchAll, Prepare, MissingCategories, SentPairs, DispatchFrame;
    ClaimsSettled(cfg, db, userId, runId, ports, ans, now);
    FinalizeMessages(cfg, db, userId, runId, ports, ans, now);
    var scope := CallScope(cfg, db, runId, ans);
    var d := CallDispatch(cfg, db, userId, runId, ports, ans, now);
    assert RightlySent(db, d.db, userId, runId, scope, ProgressSnapshot(cfg, db, userId, runId, scope), ans.newest,
                       ports, m);
  }

  lemma NewClaimWasSent(cfg: Config, db: Db, userId: Uuid, runId: Uuid, ports: Ports, ans: Answers, now: int,
      k: ClaimKey) returns (m: Message)
    requires cfg.Lawful() && Live(db, userId, runId) && (ports.categorySender || k.ClusterClaim?)
    requires !FinalizeCall(cfg, db, userId, Some(runId), ports, ans, now).raised
    requires !Claimed(db, k) && Claimed(FinalizeCall(cfg, db, userId, Some(runId), ports, ans, now).db, k)
    ensures m in FinalizeCall(cfg, db, userId, Some(runId), ports, ans, now).sent && KeyOf(m) == Some(k)
  {
    hide ProgressSnapshot, DispatchAll, Prepare, MissingCategories, RightlySent, DispatchFrame;
    ClaimsSettled(cfg, db, userId, runId, ports, ans, now);
    FinalizeMessages(cfg, db, userId, runId, ports, ans, now);
    var d := CallDispatch(cfg, db, userId, runId, ports, ans, now);
    match k
    case HygieneClaim(_, _) => assert false;
    case CategoryClaim(r, c) =>
      assert (r, c) in SentPairs(d.sent);
      m := CategoryMessage(r, c);
    case ClusterClaim(r) =>
      m := ClusterMessage(userId, runId, ans.newest);
  }

  // Without a queue for categories only cluster messages leave.
  lemma OnlyClustersSent(cfg: Config, db: Db, userId: Uuid, runId: Uuid, ports: Ports, ans: Answers, now: int)
    requires cfg.Lawful() && Live(db, userId, runId) && !ports.categorySender
    ensures forall m | m in FinalizeCall(cfg, db, userId, Some(runId), ports, ans, now).sent :: m.ClusterMessage?
  {
    hide ProgressSnapshot, DispatchAll, Prepare, MissingCategories, RightlySent, DispatchFrame, FinalizeCall;
    FinalizeMessages(cfg, db, userId, runId, ports, ans, now);
  }

  lemma HygieneClaimsKept(cfg: Config, db: Db, userId: Uuid, runId: Uuid, ports: Ports, ans: Answers, now: int)
    requires cfg.Lawful() && Live(db, userId, runId)
    requires !FinalizeCall(cfg, db, userId, Some(runId), ports, ans, now).raised
    ensures FinalizeCall(cfg, db, userId, Some(runId), ports, ans, now).db.hygieneClaims == db.hygieneClaims
  {
    hide FinalizeCall, ProgressSnapshot;
    ClaimsSettled(cfg, db, userId, runId, ports, ans, now);
  }
}

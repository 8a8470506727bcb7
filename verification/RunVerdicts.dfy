/**
 One finalize call, told by the rows it meets and leaves: when it ends the run and
 with which verdict, what it writes, and which messages it sends. Conditions are
 those of RunTerms, numbers and texts are spelled out.
 */
module RunVerdicts {
  import opened PromptLog
  import opened Wrappers
  import opened RunTables
  import opened RunTerms
  import opened RunMeasure
  import opened RunService
  import opened RunFinalizeLaws
  import opened RunDispatchLaws

  ghost predicate GoingOn(db: Db, u: Uuid, r: Uuid) {
    r in db.runs && db.runs[r].userId == u && (db.runs[r].status == Queued || db.runs[r].status == Running)
  }

  // Some call of the run failed that fails the run.
  ghost predicate CallFailed(db: Db, r: Uuid) {
    exists i | 0 <= i < |db.promptLog| :: FailsRun(db.promptLog[i], r)
  }

  // The run's stats: five keys, the last of them the scope, and whatever else was
  // there before.
  ghost predicate Shows(cfg: Config, db: Db, u: Uuid, r: Uuid, scope: seq<Uuid>, before: Json, after: Json) {
    && after.JObject?
    && (exists s: Snapshot ::
          && IsCount(cfg, db, u, r, scope, s)
          && {"ingested", "classified", "summarized", "new_must_read"} <= after.fields.Keys
          && after.fields["ingested"] == JInt(s.ingested) && after.fields["classified"] == JInt(s.classified)
          && after.fields["summarized"] == JInt(s.summarized) && after.fields["new_must_read"] == JInt(s.newMustRead))
    && AccountIdsFromStats(cfg, after) == scope
    && (before.JObject? ==>
          forall k | k !in {"ingested", "classified", "summarized", "new_must_read", "account_ids"} ::
            (k in after.fields <==> k in before.fields) && (k in before.fields ==> after.fields[k] == before.fields[k]))
  }

  // The owner's lock, if this run holds it, is released by the run's end; a completed
  // run also counts as the last one finished.
  ghost predicate LockReleased(before: map<Uuid, User>, after: map<Uuid, User>, u: Uuid, r: Uuid, completed: bool,
      now: int) {
    && after.Keys == before.Keys
    && forall x | x in before ::
         after[x] == if x == u && before[x].currentRunId == Some(r)
                     then User(None, None, if completed then Some(now) else before[x].lastRunFinishedAt)
                     else before[x]
  }

  /** The verdict of a call that is not rolled back. It ends the run exactly when
      nothing is owed in the tables it leaves; the run is then failed exactly when some
      call that counts failed, and complete otherwise. */
  lemma CallVerdict(cfg: Config, db: Db, u: Uuid, r: Uuid, ports: Ports, ans: Answers, now: int)
    requires cfg.Lawful() && GoingOn(db, u, r)
    requires !FinalizeCall(cfg, db, u, Some(r), ports, ans, now).raised
    ensures var o := FinalizeCall(cfg, db, u, Some(r), ports, ans, now);
            var scope := CallScope(cfg, db, r, ans);
            && r in o.db.runs
            && (o.finished <==> NothingOwed(cfg, o.db, u, r, scope))
            && (var run, run' := db.runs[r], o.db.runs[r];
                && run'.status == (if !o.finished then Running else if CallFailed(o.db, r) then Failed else Complete)
                && run'.completedAt == (if o.finished then Some(now) else run.completedAt)
                && run'.error == (if !o.finished then run.error
                                  else if CallFailed(o.db, r)
                                  then Some("One or more LLM provider calls failed during the scan.") else None)
                && run'.userId == u
                && run'.costCents.Some? && IsCost(o.db.promptLog, r, run'.costCents.value)
                && Shows(cfg, o.db, u, r, scope, run.stats, run'.stats))
            && (if o.finished then LockReleased(db.users, o.db.users, u, r, !CallFailed(o.db, r), now)
                else o.db.users == db.users)
            && (forall x | x in db.runs && x != r :: x in o.db.runs && o.db.runs[x] == db.runs[x])
            && o.db.runs.Keys == db.runs.Keys
            && o.db == db.(runs := o.db.runs, users := o.db.users, categoryClaims := o.db.categoryClaims,
                           categoryDigests := o.db.categoryDigests, promptLog := o.db.promptLog)
  {
    hide FinalizeCall, ProgressSnapshot, AccountIdsFromStats, NothingOwed, IsCount, IsCost, CostCents, ClearUserLock,
        OtherKeysKept, HasFatal, CallFailed, DispatchFrame;
    var o := FinalizeCall(cfg, db, u, Some(r), ports, ans, now);
    var scope := CallScope(cfg, db, r, ans);
    FinalizeEffect(cfg, db, u, r, ports, ans, now);
    CountersMean(cfg, o.db, u, r, scope);
    CountMeans(cfg, o.db, u, r, scope);
    CostMeans(o.db.promptLog, r);
    CallFailedMeans(o.db, r);
    LockMeans(db, u, r, !CallFailed(o.db, r), now);
    KeysMean(db.runs[r].stats, o.db.runs[r].stats);
  }

  lemma CallFailedMeans(db: Db, r: Uuid)
    ensures CallFailed(db, r) <==> HasFatal(db, r)
  {
    hide FatalRow, FailsRun;
    forall row: PromptLogRow ensures FatalRow(row, r) <==> FailsRun(row, r) { FatalMeans(row, r); }
  }

  lemma LockMeans(db: Db, u: Uuid, r: Uuid, completed: bool, now: int)
    ensures LockReleased(db.users, ClearUserLock(db, u, r, completed, now).users, u, r, completed, now)
  {
  }

  lemma KeysMean(before: Json, after: Json)
    requires OtherKeysKept(before, after)
    ensures before.JObject? && after.JObject? ==>
              forall k | k !in {"ingested", "classified", "summarized", "new_must_read", "account_ids"} ::
                (k in after.fields <==> k in before.fields)
                    && (k in before.fields ==> after.fields[k] == before.fields[k])
  {
  }

  /** A call without a run, on a run of someone else, or on one that has ended does
      nothing. */
  lemma OtherCallsDoNothing(cfg: Config, db: Db, u: Uuid, r: Option<Uuid>, ports: Ports, ans: Answers, now: int)
    requires r.None? || !GoingOn(db, u, r.value)
    ensures FinalizeCall(cfg, db, u, r, ports, ans, now) == Outcome(db, [], false, false)
  {
    FinalizeIgnores(cfg, db, u, r, ports, ans, now);
    hide FinalizeCall;
  }

  // ------------------------------------------------------------- what is sent

  // The digest of c is due now and nobody has claimed it.
  ghost predicate DigestDue(db: Db, r: Uuid, scope: seq<Uuid>, c: Label) {
    MailDone(db, r, scope) && DigestOwed(db, r, scope, c) && (r, c) !in db.categoryClaims
  }

  // The cluster is due now and nobody has claimed it.
  ghost predicate ClusterDue(cfg: Config, db: Db, u: Uuid, r: Uuid, scope: seq<Uuid>)
    requires r in db.runs
  {
    AllClassified(db, r, scope) && ClusterOwed(cfg, db, u, r, scope) && db.runs[r].clusterEnqueuedAt.None?
  }

  lemma DueMeansWanted(cfg: Config, db: Db, u: Uuid, r: Uuid, scope: seq<Uuid>)
    requires r in db.runs
    ensures var s := ProgressSnapshot(cfg, db, u, r, scope);
            && (ClusterDue(cfg, db, u, r, scope) <==> WantsCluster(s) && !Claimed(db, ClusterClaim(r)))
            && forall c :: DigestDue(db, r, scope, c) <==>
                 WantsDigests(s) && c in MissingCategories(db, r, scope) && !Claimed(db, CategoryClaim(r, c))
  {
    hide ProgressSnapshot, AllClassified, MailDone, ClusterOwed, DigestOwed, MissingCategories;
    CountersMean(cfg, db, u, r, scope);
    forall c ensures c in MissingCategories(db, r, scope) <==> DigestOwed(db, r, scope, c) {
      DigestMeans(db, r, scope, c);
    }
  }

  // The cluster before the digests, must-read before good-to-read.
  ghost predicate InSourceOrder(sent: seq<Message>) {
    forall i, j | 0 <= i < j < |sent| ::
      && sent[j].CategoryMessage?
      && (sent[i].CategoryMessage? ==> sent[i].category == MustRead && sent[j].category == GoodToRead)
  }

  lemma {:induction false} CategoriesOrdered(db: Db, r: Uuid, missing: seq<Label>, ports: Ports, now: int)
    ensures var sent := DispatchCategories(db, r, missing, ports, now).sent;
            && |sent| <= |missing| && (forall m | m in sent :: m.CategoryMessage? && m.category in missing)
            && (|missing| == 2 && |sent| == 2 ==> sent[0].category == missing[0] && sent[1].category == missing[1])
    decreases |missing|
  {
    if missing != [] {
      var head := DispatchCategory(db, r, missing[0], ports, now);
      CategoriesOrdered(head.db, r, missing[1..], ports, now);
      assert missing == [missing[0]] + missing[1..];
    }
  }

  lemma AtMostTwoMissing(db: Db, r: Uuid, scope: seq<Uuid>)
    ensures var missing := MissingCategories(db, r, scope);
            |missing| <= 2 && (|missing| == 2 ==> missing == [MustRead, GoodToRead])
  {
    hide CategoryMissing;
  }

  lemma ClusterThenCategories(cluster: seq<Message>, categories: seq<Message>)
    requires |cluster| <= 1 && |categories| <= 2 && forall m | m in categories :: m.CategoryMessage?
    requires |categories| == 2 ==> categories[0].category == MustRead && categories[1].category == GoodToRead
    requires forall m | m in cluster :: m.ClusterMessage?
    ensures InSourceOrder(cluster + categories) && InSourceOrder(cluster)
  {
    var sent := cluster + categories;
    forall j | 0 < j < |sent| ensures sent[j].CategoryMessage? { assert sent[j] in categories; }
    if cluster != [] { assert cluster[0] in cluster; }
  }

  lemma SentOrdered(cfg: Config, db: Db, u: Uuid, r: Uuid, ports: Ports, ans: Answers, now: int)
    requires Live(db, u, r)
    ensures InSourceOrder(FinalizeCall(cfg, db, u, Some(r), ports, ans, now).sent)
  {
    hide ProgressSnapshot, Prepare, FinalizeCall, DispatchCategories, DispatchCluster, AccountIdsFromStats,
        MissingCategories, InSourceOrder;
    SentByDispatch(cfg, db, u, r, ports, ans, now);
    var scope := CallScope(cfg, db, r, ans);
    var s := ProgressSnapshot(cfg, db, u, r, scope);
    var prepared := Prepare(cfg, db, r, scope, s);
    var d1 := if WantsCluster(s) then DispatchCluster(prepared, u, r, ans.newest, ports, now)
      else Dispatch(prepared, [], false, false);
    var missing := MissingCategories(d1.db, r, scope);
    ClusterStep(prepared, u, r, scope, ans.newest, ports, now);
    AtMostTwoMissing(d1.db, r, scope);
    CategoriesOrdered(d1.db, r, missing, ports, now);
    ClusterThenCategories(d1.sent, DispatchCategories(d1.db, r, missing, ports, now).sent);
  }

  /** What a call that is not rolled back dispatches. It claims exactly the digests that
      are due, if it has a sender or a builder, and the cluster if that is due, it has
      a sender and two newsletters were listed. What it sends is one message for each
      of these, with the newsletters listed, the cluster's first; a digest built here
      has none. */
  lemma CallDispatches(cfg: Config, db: Db, u: Uuid, r: Uuid, ports: Ports, ans: Answers, now: int)
    requires cfg.Lawful() && GoingOn(db, u, r)
    requires !FinalizeCall(cfg, db, u, Some(r), ports, ans, now).raised
    ensures var o := FinalizeCall(cfg, db, u, Some(r), ports, ans, now);
            var scope := CallScope(cfg, db, r, ans);
            var cluster := ClusterDue(cfg, db, u, r, scope) && ports.clusterSender && |ans.newest| >= 2;
            && r in o.db.runs
            && (forall p :: p in o.db.categoryClaims <==>
                  || p in db.categoryClaims
                  || (p.0 == r && DigestDue(db, r, scope, p.1)
                      && (ports.categorySender || ports.categoryBuilder.Some?)))
            && o.db.runs[r].clusterEnqueuedAt == (if cluster then Some(now) else db.runs[r].clusterEnqueuedAt)
            && (forall m :: m in o.sent <==>
                  || (cluster && m == ClusterMessage(u, r, ans.newest))
                  || (m.CategoryMessage? && m.runId == r && ports.categorySender
                      && DigestDue(db, r, scope, m.category)))
            && (forall i, j | 0 <= i < j < |o.sent| :: o.sent[i] != o.sent[j])
            && (forall m | m in o.sent :: !ports.sendFails(m))
            && InSourceOrder(o.sent)
  {
    hide FinalizeCall, ProgressSnapshot, MissingCategories, AccountIdsFromStats, DigestDue, ClusterDue, InSourceOrder;
    SentOrdered(cfg, db, u, r, ports, ans, now);
    var o := FinalizeCall(cfg, db, u, Some(r), ports, ans, now);
    var scope := CallScope(cfg, db, r, ans);
    DueMeansWanted(cfg, db, u, r, scope);
    EverythingDueIsClaimed(cfg, db, u, r, ports, ans, now);
    MessagesSentFor(cfg, db, u, r, ports, ans, now);
    SentInOrder(cfg, db, u, r, ports, ans, now);
    ClusterSent(cfg, db, u, r, ports, ans, now);
    ClusterStamped(cfg, db, u, r, ports, ans, now);
    forall m | m in o.sent ensures !ports.sendFails(m) { CallDelivers(cfg, db, u, r, ports, ans, now, m); }
    forall c | ports.categorySender && DigestDue(db, r, scope, c) ensures CategoryMessage(r, c) in o.sent {
      ClaimsAreSends(cfg, db, u, r, ports, ans, now, CategoryClaim(r, c));
    }
  }

  lemma SentInOrder(cfg: Config, db: Db, u: Uuid, r: Uuid, ports: Ports, ans: Answers, now: int)
    requires cfg.Lawful() && Live(db, u, r)
    ensures var o := FinalizeCall(cfg, db, u, Some(r), ports, ans, now);
            && (forall i, j | 0 <= i < j < |o.sent| :: o.sent[i] != o.sent[j])
            && (!ports.categorySender ==> forall m | m in o.sent :: m.ClusterMessage?)
  {
    hide FinalizeCall, ProgressSnapshot, MissingCategories, DispatchAll, Prepare, OtherKeysKept;
    FinalizeMessages(cfg, db, u, r, ports, ans, now);
  }

  // The stamp is left as it was, or set to the time of the call.
  lemma ClusterStamped(cfg: Config, db: Db, u: Uuid, r: Uuid, ports: Ports, ans: Answers, now: int)
    requires cfg.Lawful() && Live(db, u, r)
    requires !FinalizeCall(cfg, db, u, Some(r), ports, ans, now).raised
    ensures var o := FinalizeCall(cfg, db, u, Some(r), ports, ans, now);
            && r in o.db.runs
            && (o.db.runs[r].clusterEnqueuedAt == db.runs[r].clusterEnqueuedAt
                || (db.runs[r].clusterEnqueuedAt.None? && o.db.runs[r].clusterEnqueuedAt == Some(now)))
  {
    hide ProgressSnapshot, Prepare, FinalizeCall, DispatchCategories, AccountIdsFromStats, MissingCategories;
    var scope := CallScope(cfg, db, r, ans);
    ClaimsSettled(cfg, db, u, r, ports, ans, now);
    PrepareEffect(cfg, db, u, r, scope, ProgressSnapshot(cfg, db, u, r, scope));
  }

  lemma ClusterSent(cfg: Config, db: Db, u: Uuid, r: Uuid, ports: Ports, ans: Answers, now: int)
    requires cfg.Lawful() && GoingOn(db, u, r)
    requires !FinalizeCall(cfg, db, u, Some(r), ports, ans, now).raised
    ensures var o := FinalizeCall(cfg, db, u, Some(r), ports, ans, now);
            var cluster := ClusterDue(cfg, db, u, r, CallScope(cfg, db, r, ans)) && ports.clusterSender
              && |ans.newest| >= 2;
            && r in o.db.runs
            && (db.runs[r].clusterEnqueuedAt.None? ==> (o.db.runs[r].clusterEnqueuedAt.Some? <==> cluster))
            && (cluster ==> ClusterMessage(u, r, ans.newest) in o.sent)
  {
    hide FinalizeCall, ProgressSnapshot, MissingCategories, AccountIdsFromStats, DigestDue, ClusterDue;
    var scope := CallScope(cfg, db, r, ans);
    DueMeansWanted(cfg, db, u, r, scope);
    EverythingDueIsClaimed(cfg, db, u, r, ports, ans, now);
    MessagesSentFor(cfg, db, u, r, ports, ans, now);
    ClaimsAreSends(cfg, db, u, r, ports, ans, now, ClusterClaim(r));
  }

  // The ids are the newest newsletters of the run, newest first: all of them, or the
  // first five hundred.
  ghost predicate ListsNewest(db: Db, r: Uuid, scope: seq<Uuid>, ids: seq<Uuid>) {
    && |ids| <= 500 && (forall x | x in ids :: IsNewsletter(db, r, scope, x))
    && (forall i, j | 0 <= i < j < |ids| ::
          && ids[i] != ids[j] && ids[i] in db.emails && ids[j] in db.emails
          && db.emails[ids[i]].internalDate >= db.emails[ids[j]].internalDate)
    && (forall x | IsNewsletter(db, r, scope, x) && x !in ids ::
          && |ids| == 500
          && forall i | 0 <= i < |ids| ::
               ids[i] in db.emails && x in db.emails && db.emails[ids[i]].internalDate >= db.emails[x].internalDate)
  }

  lemma NewestMeans(db: Db, r: Uuid, scope: seq<Uuid>, ids: seq<Uuid>)
    requires NewestFirst(db, RunNewsletters(db, r, scope), ids, MAX_CLUSTER_NEWSLETTERS)
    ensures ListsNewest(db, r, scope, ids)
  {
    var pool := RunNewsletters(db, r, scope);
    forall e ensures e in pool <==> IsNewsletter(db, r, scope, e) {}
    hide RunNewsletters, IsNewsletter;
    forall x | x in ids ensures x in pool { var i :| 0 <= i < |ids| && ids[i] == x; }
    if |ids| < 500 {
      DistinctCount(ids);
      SubsetCardinality(Listed(ids), pool);
      forall x | x in pool ensures x in ids { assert x in Listed(ids); }
    }
  }

  function Listed(ids: seq<Uuid>): set<Uuid> {
    set x | x in ids
  }

  lemma {:induction false} DistinctCount(ids: seq<Uuid>)
    requires forall i, j | 0 <= i < j < |ids| :: ids[i] != ids[j]
    ensures |Listed(ids)| == |ids|
  {
    if ids == [] {
      assert Listed(ids) == {};
    } else {
      var front, last := ids[..|ids| - 1], ids[|ids| - 1];
      DistinctCount(front);
      assert ids == front + [last] && last !in Listed(front);
      assert Listed(ids) == Listed(front) + {last};
    }
  }

  // -------------------------------------------------------- when a call raises

  lemma {:induction false} CategoriesRaise(db: Db, r: Uuid, missing: seq<Label>, ports: Ports, now: int)
    requires r in db.runs && !BuildsInline(ports)
    requires forall i, j | 0 <= i < j < |missing| :: missing[i] != missing[j]
    ensures DispatchCategories(db, r, missing, ports, now).raised <==>
            ports.categorySender && exists c | c in missing ::
              (r, c) !in db.categoryClaims && ports.sendFails(CategoryMessage(r, c))
    decreases |missing|
  {
    if missing != [] {
      var head := DispatchCategory(db, r, missing[0], ports, now);
      var rest := missing[1..];
      assert missing == [missing[0]] + rest;
      forall c | c in rest ensures (r, c) in head.db.categoryClaims <==> (r, c) in db.categoryClaims {
        var i :| 0 <= i < |rest| && rest[i] == c;
        assert missing[i + 1] == c && missing[0] != c;
      }
      CategoriesRaise(head.db, r, rest, ports, now);
    }
  }

  /** A call that builds nothing itself raises exactly when the message of something
      due cannot be sent. */
  lemma CallRaises(cfg: Config, db: Db, u: Uuid, r: Uuid, ports: Ports, ans: Answers, now: int)
    requires cfg.Lawful() && GoingOn(db, u, r) && (ports.categorySender || ports.categoryBuilder.None?)
    ensures var scope := CallScope(cfg, db, r, ans);
            FinalizeCall(cfg, db, u, Some(r), ports, ans, now).raised <==>
            || (&& ClusterDue(cfg, db, u, r, scope) && ports.clusterSender && |ans.newest| >= 2
                && ports.sendFails(ClusterMessage(u, r, ans.newest)))
            || (ports.categorySender
                && exists c :: DigestDue(db, r, scope, c) && ports.sendFails(CategoryMessage(r, c)))
  {
    hide ProgressSnapshot, Prepare, Conclude, MissingCategories, AccountIdsFromStats, DigestDue, ClusterDue,
        DispatchCategories;
    var scope := CallScope(cfg, db, r, ans);
    var s := ProgressSnapshot(cfg, db, u, r, scope);
    var prepared := Prepare(cfg, db, r, scope, s);
    DueMeansWanted(cfg, db, u, r, scope);
    PrepareEffect(cfg, db, u, r, scope, s);
    ClusterStep(prepared, u, r, scope, ans.newest, ports, now);
    var d1 := if WantsCluster(s) then DispatchCluster(prepared, u, r, ans.newest, ports, now)
      else Dispatch(prepared, [], false, false);
    MissingDistinct(db, r, scope);
    ClusterClaimed(prepared, u, r, ans.newest, ports, now);
    CategoriesRaise(d1.db, r, MissingCategories(db, r, scope), ports, now);
  }

  // ------------------------------------------------------------ building inline

  ghost predicate BuilderWrites(ports: Ports) {
    && !ports.categorySender && ports.categoryBuilder.Some?
    && forall d, r, c ::
         var b := ports.categoryBuilder.value(d, r, c); b.Some? && b.value.written
  }

  lemma OneDigestWritten(db: Db, r: Uuid, c: Label, ports: Ports, now: int)
    requires r in db.runs && BuilderWrites(ports) && (r, c) !in db.categoryClaims
    ensures var d := DispatchCategory(db, r, c, ports, now);
            && !d.raised && d.built && d.db.runs == db.runs
            && d.db.categoryClaims == db.categoryClaims + {(r, c)}
            && d.db.categoryDigests == db.categoryDigests + {(r, c)}
  {
  }

  lemma {:induction false} EveryDigestWritten(db: Db, r: Uuid, missing: seq<Label>, ports: Ports, now: int)
    requires r in db.runs && BuilderWrites(ports)
    requires forall c | c in missing :: (r, c) !in db.categoryClaims
    requires forall i, j | 0 <= i < j < |missing| :: missing[i] != missing[j]
    ensures var d := DispatchCategories(db, r, missing, ports, now);
            !d.raised && (missing != [] ==> d.built) && db.categoryDigests <= d.db.categoryDigests
            && forall c | c in missing :: (r, c) in d.db.categoryDigests
    decreases |missing|
  {
    hide DispatchCategory, BuilderWrites;
    if missing != [] {
      var head := DispatchCategory(db, r, missing[0], ports, now);
      var rest := missing[1..];
      OneDigestWritten(db, r, missing[0], ports, now);
      assert missing == [missing[0]] + rest;
      forall c | c in rest ensures (r, c) !in head.db.categoryClaims {
        var i :| 0 <= i < |rest| && rest[i] == c;
        assert missing[i + 1] == c && missing[0] != c;
      }
      EveryDigestWritten(head.db, r, rest, ports, now);
    }
  }

  /** What building one digest leaves: its claim, its row if it was written, and one log
      row of the run for each of its calls, with their statuses and costs. A builder
      that raises raises the call. */
  lemma BuildLeaves(db: Db, r: Uuid, c: Label, ports: Ports, now: int)
    requires r in db.runs && (r, c) !in db.categoryClaims
    requires !ports.categorySender && ports.categoryBuilder.Some?
    ensures var d := DispatchCategory(db, r, c, ports, now);
            d.sent == [] &&
            match ports.categoryBuilder.value(db.(categoryClaims := db.categoryClaims + {(r, c)}), r, c)
            case None => d.raised
            case Some(b) =>
              && d.built && !d.raised
              && d.db == db.(categoryClaims := db.categoryClaims + {(r, c)}, categoryDigests := d.db.categoryDigests,
                             promptLog := d.db.promptLog)
              && (forall p :: p in d.db.categoryDigests <==> p in db.categoryDigests || (b.written && p == (r, c)))
              && |d.db.promptLog| == |db.promptLog| + |b.calls| && db.promptLog <= d.db.promptLog
              && forall i | 0 <= i < |b.calls| ::
                   d.db.promptLog[|db.promptLog| + i] ==
                   PromptLogRow(Some(r), None, b.calls[i].0, Some("category_digest"), b.calls[i].1)
  {
  }

  /** A call that builds its digests itself, and writes them, ends a run that owes
      nothing but digests nobody has claimed. */
  lemma InlineCallEnds(cfg: Config, db: Db, u: Uuid, r: Uuid, ports: Ports, ans: Answers, now: int)
    requires cfg.Lawful() && GoingOn(db, u, r) && BuilderWrites(ports)
    requires var scope := CallScope(cfg, db, r, ans);
             && MailDone(db, r, scope) && !ClusterOwed(cfg, db, u, r, scope)
             && forall c | DigestOwed(db, r, scope, c) :: (r, c) !in db.categoryClaims
    ensures var o := FinalizeCall(cfg, db, u, Some(r), ports, ans, now); !o.raised && o.finished
  {
    hide ProgressSnapshot, Prepare, Conclude, MissingCategories, AccountIdsFromStats, DigestOwed, ClusterOwed, MailDone,
        DispatchCategories, BuilderWrites;
    var scope := CallScope(cfg, db, r, ans);
    var s := ProgressSnapshot(cfg, db, u, r, scope);
    var prepared := Prepare(cfg, db, r, scope, s);
    CountersMean(cfg, db, u, r, scope);
    PrepareEffect(cfg, db, u, r, scope, s);
    var missing := MissingCategories(db, r, scope);
    forall c | c in missing ensures (r, c) !in prepared.categoryClaims { DigestMeans(db, r, scope, c); }
    MissingDistinct(db, r, scope);
    EveryDigestWritten(prepared, r, missing, ports, now);
    var d := DispatchCategories(prepared, r, missing, ports, now);
    CategoriesDispatched(prepared, r, missing, ports, now);
    NothingLeft(cfg, db, d.db, u, r, scope);
    assert !FinalizeCall(cfg, db, u, Some(r), ports, ans, now).raised;
    if missing == [] { NothingMissingNothingOwed(cfg, db, u, r, scope); }
  }

  lemma NothingMissingNothingOwed(cfg: Config, db: Db, u: Uuid, r: Uuid, scope: seq<Uuid>)
    requires MailDone(db, r, scope) && !ClusterOwed(cfg, db, u, r, scope) && MissingCategories(db, r, scope) == []
    ensures ProgressSnapshot(cfg, db, u, r, scope).PendingTotal() == 0
  {
    hide ProgressSnapshot, MailDone, ClusterOwed, DigestOwed, MissingCategories;
    CountersMean(cfg, db, u, r, scope);
    forall c ensures !DigestOwed(db, r, scope, c) { DigestMeans(db, r, scope, c); }
  }

  lemma NoneMissing(db: Db, r: Uuid, scope: seq<Uuid>)
    requires forall c :: c !in MissingCategories(db, r, scope)
    ensures MissingCategories(db, r, scope) == []
  {
    hide CategoryMissing;
    assert CategoryMissing(db, r, scope, MustRead) ==> MustRead in MissingCategories(db, r, scope);
    assert CategoryMissing(db, r, scope, GoodToRead) ==> GoodToRead in MissingCategories(db, r, scope);
  }

  lemma NothingLeft(cfg: Config, db: Db, db': Db, u: Uuid, r: Uuid, scope: seq<Uuid>)
    requires DispatchFrame(db.(runs := db'.runs), db')
    requires MailDone(db, r, scope) && !ClusterOwed(cfg, db, u, r, scope)
    requires forall c | c in MissingCategories(db, r, scope) :: (r, c) in db'.categoryDigests
    ensures ProgressSnapshot(cfg, db', u, r, scope).PendingTotal() == 0
  {
    var t := Target(cfg, u, r, scope);
    hide ProgressSnapshot, MissingCategories, CategoryMissing, PendingClusters, RunTables.Unclassified, AwaitingSummary;
    hide MailDone, ClusterOwed;
    AwaitingMeans(db, r, scope);
    ClusterMeans(cfg, db, u, r, scope);
    DigestCallsRaiseNothing(t, db, db');
    forall c ensures c !in t.Missing(db') {
      DigestMeans(db', r, scope, c);
    }
    NoneMissing(db', r, scope);
    MeasureZero(t, db');
  }

  // ------------------------------------------------------------------ the scope

  /** The accounts a call looks at. A scope in the run's stats is kept: the strings of
      its list that are ids, in order. Without one the owner's active accounts with
      automatic scanning are taken, each once. */
  lemma ScopeMeans(cfg: Config, db: Db, u: Uuid, r: Uuid, ports: Ports, ans: Answers)
    requires r in db.runs && AnswersFit(cfg, db, u, r, ports, ans)
    ensures var scope, kept := CallScope(cfg, db, r, ans), AccountIdsFromStats(cfg, db.runs[r].stats);
            if kept != [] then scope == kept
            else
              && (forall i, j | 0 <= i < j < |scope| :: scope[i] != scope[j])
              && (forall a :: a in scope <==>
                    && a in db.accounts && db.accounts[a].userId == u && db.accounts[a].active
                    && db.accounts[a].autoScan)
  {
    hide AccountIdsFromStats, ProgressSnapshot;
  }

  lemma ScopeFromStats(cfg: Config, stats: Json, before: seq<Json>, item: Json, rest: map<string, Json>)
    ensures !stats.JObject? ==> AccountIdsFromStats(cfg, stats) == []
    ensures stats.JObject? && ("account_ids" !in stats.fields || !stats.fields["account_ids"].JList?) ==>
              AccountIdsFromStats(cfg, stats) == []
    ensures AccountIdsFromStats(cfg, JObject(rest["account_ids" := JList([])])) == []
    ensures AccountIdsFromStats(cfg, JObject(rest["account_ids" := JList(before + [item])])) ==
            AccountIdsFromStats(cfg, JObject(rest["account_ids" := JList(before)]))
            + (if !item.JStr? then []
               else match cfg.parseUuid(item.s) case Some(id) => [id] case None => [])
  {
    IdsJoin(cfg, before, item);
  }

  lemma {:induction false} IdsJoin(cfg: Config, before: seq<Json>, item: Json)
    ensures ParseIds(cfg, before + [item]) == ParseIds(cfg, before) + ParseIds(cfg, [item])
    ensures ParseIds(cfg, [item]) ==
            if !item.JStr? then [] else match cfg.parseUuid(item.s) case Some(id) => [id] case None => []
  {
    assert [item][1..] == [];
    if before == [] {
      assert before + [item] == [item];
    } else {
      assert (before + [item])[1..] == before[1..] + [item];
      IdsJoin(cfg, before[1..], item);
    }
  }
}

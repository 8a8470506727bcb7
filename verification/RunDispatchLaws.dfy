/** Completeness of a finalize call's dispatch: everything owed is claimed. */
module RunDispatchLaws {
  import opened Wrappers
  import opened RunTables
  import opened RunMeasure
  import opened RunService
  import opened RunFinalizeLaws

  // Whether categories are dispatched at all, and whether by building them here.
  predicate DispatchesCategories(ports: Ports) {
    ports.categorySender || ports.categoryBuilder.Some?
  }

  predicate BuildsInline(ports: Ports) {
    !ports.categorySender && ports.categoryBuilder.Some?
  }

  function Pairs(runId: Uuid, categories: seq<Label>): set<(Uuid, Label)> {
    set c | c in categories :: (runId, c)
  }

  lemma PairsSplit(runId: Uuid, categories: seq<Label>)
    requires categories != []
    ensures Pairs(runId, categories) == {(runId, categories[0])} + Pairs(runId, categories[1..])
  {
    assert categories == [categories[0]] + categories[1..];
  }

  lemma OneCategoryClaimed(db: Db, runId: Uuid, category: Label, ports: Ports, now: int)
    requires runId in db.runs
    ensures var d := DispatchCategory(db, runId, category, ports, now);
            && d.db.runs == db.runs
            && (!d.raised ==> d.db.categoryClaims == db.categoryClaims
                                                     + (if DispatchesCategories(ports) then {(runId, category)}
                                                        else {}))
            && (!BuildsInline(ports) ==> !d.built)
            && (!BuildsInline(ports) && (forall m :: !ports.sendFails(m)) ==> !d.raised)
  {
  }

  /** Every category of the list ends claimed, unless nothing dispatches or
      something raises. */
  lemma {:induction false} EveryCategoryClaimed(db: Db, runId: Uuid, missing: seq<Label>, ports: Ports, now: int)
    requires runId in db.runs
    ensures var d := DispatchCategories(db, runId, missing, ports, now);
            && (!d.raised ==> d.db.categoryClaims == db.categoryClaims
                                                     + (if DispatchesCategories(ports) then Pairs(runId, missing)
                                                        else {}))
            && (!BuildsInline(ports) ==> !d.built)
            && (!BuildsInline(ports) && (forall m :: !ports.sendFails(m)) ==> !d.raised)
    decreases |missing|
  {
    hide DispatchCategory;
    if missing == [] {
      assert Pairs(runId, []) == {};
    } else {
      var head := DispatchCategory(db, runId, missing[0], ports, now);
      OneCategoryClaimed(db, runId, missing[0], ports, now);
      PairsSplit(runId, missing);
      EveryCategoryClaimed(head.db, runId, missing[1..], ports, now);
    }
  }

  // What a dispatch that was not interrupted has claimed.
  ghost predicate ClaimsOwed(db: Db, db': Db, runId: Uuid, scope: seq<Uuid>, s: Snapshot, newest: seq<Uuid>,
      ports: Ports)
    requires runId in db'.runs
  {
    && db'.categoryClaims == db.categoryClaims + (if WantsDigests(s) && DispatchesCategories(ports)
                                                  then Pairs(runId, MissingCategories(db, runId, scope)) else {})
    && (WantsCluster(s) && ports.clusterSender && |newest| >= MIN_CLUSTER_NEWSLETTERS
        ==> db'.runs[runId].clusterEnqueuedAt.Some?)
  }

  lemma ClusterClaimed(db: Db, userId: Uuid, runId: Uuid, newest: seq<Uuid>, ports: Ports, now: int)
    requires runId in db.runs
    ensures var d := DispatchCluster(db, userId, runId, newest, ports, now);
            && d.db.categoryClaims == db.categoryClaims && !d.built && runId in d.db.runs
            && (!d.raised && ports.clusterSender && |newest| >= MIN_CLUSTER_NEWSLETTERS
                ==> d.db.runs[runId].clusterEnqueuedAt.Some?)
            && ((forall m :: !ports.sendFails(m)) ==> !d.raised)
  {
  }

  lemma DispatchClaimsOwed(db: Db, userId: Uuid, runId: Uuid, scope: seq<Uuid>, s: Snapshot, newest: seq<Uuid>,
      ports: Ports, now: int)
    requires runId in db.runs
    ensures var d := DispatchAll(db, userId, runId, scope, s, newest, ports, now);
            && runId in d.db.runs
            && (!d.raised ==> ClaimsOwed(db, d.db, runId, scope, s, newest, ports))
            && (!BuildsInline(ports) ==> !d.built)
            && (!BuildsInline(ports) && (forall m :: !ports.sendFails(m)) ==> !d.raised)
  {
    hide DispatchCluster, DispatchCategories, MissingCategories;
    var d1 := if WantsCluster(s) then DispatchCluster(db, userId, runId, newest, ports, now)
      else Dispatch(db, [], false, false);
    ClusterStep(db, userId, runId, scope, newest, ports, now);
    ClusterClaimed(db, userId, runId, newest, ports, now);
    if !d1.raised && WantsDigests(s) {
      EveryCategoryClaimed(d1.db, runId, MissingCategories(d1.db, runId, scope), ports, now);
    }
  }

  /** After a committed call on a live run the claims gained are exactly those of
      the work that was due: every missing category once mail work has drained,
      and the cluster once classification has. Only an inline build can change a
      count, and with queue senders that work nothing raises. */
  lemma EverythingDueIsClaimed(cfg: Config, db: Db, userId: Uuid, runId: Uuid, ports: Ports, ans: Answers, now: int)
    requires cfg.Lawful() && Live(db, userId, runId)
    ensures var o := FinalizeCall(cfg, db, userId, Some(runId), ports, ans, now);
            var scope := CallScope(cfg, db, runId, ans);
            var s := ProgressSnapshot(cfg, db, userId, runId, scope);
            && runId in o.db.runs
            && (!o.raised ==> ClaimsOwed(db, o.db, runId, scope, s, ans.newest, ports))
            && (!BuildsInline(ports) && o.finished ==> s.PendingTotal() == 0)
            && (!BuildsInline(ports) && s.PendingTotal() == 0 && !o.raised ==> o.finished)
            && (!BuildsInline(ports) && (forall m :: !ports.sendFails(m)) ==> !o.raised)
  {
    hide ProgressSnapshot, Prepare, Conclude, DispatchAll, MissingCategories;
    var scope := CallScope(cfg, db, runId, ans);
    var s := ProgressSnapshot(cfg, db, userId, runId, scope);
    var prepared := Prepare(cfg, db, runId, scope, s);
    PrepareEffect(cfg, db, userId, runId, scope, s);
    DispatchClaimsOwed(prepared, userId, runId, scope, s, ans.newest, ports, now);
    var o := FinalizeCall(cfg, db, userId, Some(runId), ports, ans, now);
    if !o.raised { ClaimsSettled(cfg, db, userId, runId, ports, ans, now); }
  }

  // A category due now, which an inline builder claims without any message.
  ghost predicate BuiltHere(cfg: Config, db: Db, runId: Uuid, userId: Uuid, ports: Ports, ans: Answers, k: ClaimKey)
    requires runId in db.runs
  {
    var scope := CallScope(cfg, db, runId, ans);
    && BuildsInline(ports) && k.CategoryClaim? && k.digestRun == runId && !Claimed(db, k)
    && WantsDigests(ProgressSnapshot(cfg, db, userId, runId, scope))
       && k.category in MissingCategories(db, runId, scope)
  }

  /** A committed call takes a claim exactly when it sends the claim's message, or
      builds the claim's digest itself. */
  lemma ClaimsAreSends(cfg: Config, db: Db, userId: Uuid, runId: Uuid, ports: Ports, ans: Answers, now: int,
      k: ClaimKey)
    requires cfg.Lawful() && Live(db, userId, runId)
    requires !FinalizeCall(cfg, db, userId, Some(runId), ports, ans, now).raised
    ensures var o := FinalizeCall(cfg, db, userId, Some(runId), ports, ans, now);
            !Claimed(db, k) && Claimed(o.db, k) <==>
            (exists m :: m in o.sent && KeyOf(m) == Some(k)) || BuiltHere(cfg, db, runId, userId, ports, ans, k)
  {
    hide FinalizeCall, ProgressSnapshot, MissingCategories;
    var o := FinalizeCall(cfg, db, userId, Some(runId), ports, ans, now);
    MessagesSentFor(cfg, db, userId, runId, ports, ans, now);
    EverythingDueIsClaimed(cfg, db, userId, runId, ports, ans, now);
    HygieneClaimsKept(cfg, db, userId, runId, ports, ans, now);
    if m :| m in o.sent && KeyOf(m) == Some(k) {
      SentIsClaimed(cfg, db, userId, runId, ports, ans, now, m);
    }
    if !Claimed(db, k) && Claimed(o.db, k) {
      if ports.categorySender || k.ClusterClaim? {
        var m := NewClaimWasSent(cfg, db, userId, runId, ports, ans, now, k);
      }
    }
  }

  /** Exactly when a call ends its run, told before the call: without an inline
      builder, exactly when nothing is pending. */
  lemma FinishedIffNothingPending(cfg: Config, t: Target, db: Db, ports: Ports, ans: Answers, now: int)
    requires cfg.Lawful() && t.cfg == cfg && Live(db, t.userId, t.runId) && t.scope == CallScope(cfg, db, t.runId, ans)
    requires !BuildsInline(ports)
    ensures var o := FinalizeCall(cfg, db, t.userId, Some(t.runId), ports, ans, now);
            && (o.finished <==> Measure(t, db) == 0)
            && (Measure(t, db) == 0 ==> !o.raised && o.sent == [])
  {
    hide ProgressSnapshot, FinalizeCall, Measure, ClaimsOwed;
    EverythingDueIsClaimed(cfg, db, t.userId, t.runId, ports, ans, now);
    MeasureZero(t, db);
    if Measure(t, db) == 0 { NothingDueSendsNothing(cfg, t, db, ports, ans, now); }
  }

  lemma NothingDueSendsNothing(cfg: Config, t: Target, db: Db, ports: Ports, ans: Answers, now: int)
    requires cfg.Lawful() && t.cfg == cfg && Live(db, t.userId, t.runId) && t.scope == CallScope(cfg, db, t.runId, ans)
    requires Measure(t, db) == 0
    ensures var o := FinalizeCall(cfg, db, t.userId, Some(t.runId), ports, ans, now);
            o.finished && !o.raised && o.sent == []
  {
    hide ProgressSnapshot, DispatchCategory, DispatchCluster, Prepare, Conclude, MissingCategories;
    MeasureZero(t, db);
    var s := ProgressSnapshot(cfg, db, t.userId, t.runId, t.scope);
    PrepareEffect(cfg, db, t.userId, t.runId, t.scope, s);
    NothingMissing(t, db);
  }

  lemma NothingMissing(t: Target, db: Db)
    requires Measure(t, db) == 0
    ensures t.Missing(db) == []
  {
  }

  // ------------------------------------------------------ sends that go through

  ghost predicate AllDelivered(d: Dispatch, ports: Ports) {
    forall m | m in d.sent :: !ports.sendFails(m)
  }

  lemma {:induction false} CategoriesDelivered(db: Db, runId: Uuid, missing: seq<Label>, ports: Ports, now: int)
    ensures AllDelivered(DispatchCategories(db, runId, missing, ports, now), ports)
    decreases |missing|
  {
    if missing != [] {
      var first := DispatchCategory(db, runId, missing[0], ports, now);
      assert AllDelivered(first, ports);
      CategoriesDelivered(first.db, runId, missing[1..], ports, now);
    }
  }

  // A message is recorded as sent only when its send went through.
  lemma CallDelivers(cfg: Config, db: Db, userId: Uuid, runId: Uuid, ports: Ports, ans: Answers, now: int, m: Message)
    requires Live(db, userId, runId) && m in FinalizeCall(cfg, db, userId, Some(runId), ports, ans, now).sent
    ensures !ports.sendFails(m)
  {
    hide ProgressSnapshot, Prepare, Conclude, DispatchCategories, MissingCategories;
    var scope := CallScope(cfg, db, runId, ans);
    var s := ProgressSnapshot(cfg, db, userId, runId, scope);
    var prepared := Prepare(cfg, db, runId, scope, s);
    var d1 := if WantsCluster(s) then DispatchCluster(prepared, userId, runId, ans.newest, ports, now)
      else Dispatch(prepared, [], false, false);
    CategoriesDelivered(d1.db, runId, MissingCategories(d1.db, runId, scope), ports, now);
  }
}

/**
 Why a digest run ends: productive work is bounded, what is due is dispatched, and
 a dispatched message that is handled counts down what is left.
 */
module RunLiveness {
  import opened Wrappers
  import opened RunTables
  import opened RunTerms
  import opened RunMeasure
  import opened RunService
  import opened RunFinalizeLaws
  import opened RunDispatchLaws
  import opened RunLifecycle

  // ------------------------------------------------------- what a step can raise

  // Steps that leave the run's members alone, or do its work. Mail and membership
  // of other runs may go on changing.
  ghost predicate Onward(t: Target, s: State, e: Event) {
    match e
    case RowWork(w) => Productive(t, s.db, w) || Harmless(t, s.db, w)
    case Ingest(id, _) => (t.runId, id) !in s.db.members
    case Stamp(r, _) => r != t.runId
    case _ => true
  }

  // Where the run's members stay as they are, so do its counters.
  lemma MembersKept(t: Target, db: Db, db': Db)
    requires db' == db.(emails := db'.emails, members := db'.members)
    requires forall e :: (t.runId, e) in db'.members <==> (t.runId, e) in db.members
    requires forall e | (t.runId, e) in db.members ::
               (e in db'.emails <==> e in db.emails) && (e in db.emails ==> db'.emails[e] == db.emails[e])
    ensures NoneRises(t, db, db')
  {
    assert Members(db', t.runId, t.scope) == Members(db, t.runId, t.scope);
    assert t.Unclassified(db') == t.Unclassified(db);
    assert t.Awaiting(db') == t.Awaiting(db);
    assert RunNewsletters(db', t.runId, t.scope) == RunNewsletters(db, t.runId, t.scope);
    assert RunClusterSummaries(db', t.userId, t.runId) == RunClusterSummaries(db, t.userId, t.runId);
    forall b ensures CategoryItems(db', t.runId, t.scope, b) == CategoryItems(db, t.runId, t.scope, b) {
    }
  }

  lemma CloseRaisesNothing(cfg: Config, t: Target, db: Db, e: Event)
    requires cfg.Lawful() && e.Finalize? && !Close(cfg, db, e).raised
    ensures var db' := Close(cfg, db, e).db;
            && NoneRises(t, db, db')
            && t.Unclassified(db') == t.Unclassified(db) && t.Awaiting(db') == t.Awaiting(db)
               && t.Clusters(db') == t.Clusters(db)
  {
    hide FinalizeCall, Finalized, NoneRises, Base, Measure;
    var b, o := Base(db, e), Call(cfg, db, e);
    CloseIsCall(cfg, db, e);
    BaseDiffers(db, e);
    FinalizeIgnores(cfg, b, e.userId, Some(e.runId), e.ports, e.ans, e.now);
    if Live(b, e.userId, e.runId) { FinalizeEffect(cfg, b, e.userId, e.runId, e.ports, e.ans, e.now); }
    DigestCallsRaiseNothing(t, db, o.db);
  }

  lemma SameTables(t: Target, db: Db)
    ensures NoneRises(t, db, db)
  {
  }

  // An onward step either lowers the measure or raises no counter.
  lemma OnwardStep(cfg: Config, t: Target, s: State, e: Event)
    requires cfg.Lawful() && Enabled(cfg, s, e) && Onward(t, s, e)
    ensures Measure(t, Next(cfg, s, e).db) < Measure(t, s.db) || NoneRises(t, s.db, Next(cfg, s, e).db)
    ensures e.RowWork? && Productive(t, s.db, e.w) ==> Measure(t, Next(cfg, s, e).db) < Measure(t, s.db)
  {
    hide Measure, Close, Productive, NoneRises;
    SameTables(t, s.db);
    if e.RowWork? {
      if Productive(t, s.db, e.w) { ProductiveLowers(t, s.db, e.w); } else { HarmlessRaisesNothing(t, s.db, e.w); }
    } else if e.Ingest? || e.Stamp? {
      MembersKept(t, s.db, Next(cfg, s, e).db);
    } else if e.Finalize? {
      if !Close(cfg, s.db, e).raised { CloseRaisesNothing(cfg, t, s.db, e); }
    } else {
      DigestCallsRaiseNothing(t, s.db, Next(cfg, s, e).db);
    }
  }

  lemma OnwardMeasure(cfg: Config, t: Target, s: State, e: Event)
    requires cfg.Lawful() && Enabled(cfg, s, e) && Onward(t, s, e)
    ensures var db' := Next(cfg, s, e).db;
            && Measure(t, db') <= Measure(t, s.db)
            && (Measure(t, db') == Measure(t, s.db) ==>
                  t.Clusters(db') == t.Clusters(s.db) && t.Missing(db') == t.Missing(s.db))
  {
    hide Measure, Next, NoneRises, Enabled, Onward;
    OnwardStep(cfg, t, s, e);
    if NoneRises(t, s.db, Next(cfg, s, e).db) { NoneRisesMeasure(t, s.db, Next(cfg, s, e).db); }
  }

  // ----------------------------------------------------------- bounded work

  ghost function ProductiveSteps(t: Target, states: seq<State>, events: seq<Event>): nat
    requires |states| == |events| + 1
  {
    if events == [] then 0
    else
      var n := |events| - 1;
      ProductiveSteps(t, states[..|states| - 1], events[..n])
      + (if events[n].RowWork? && Productive(t, states[n].db, events[n].w) then 1 else 0)
  }

  /** A run takes at most as many productive steps as its measure allows, however
      finalize calls, hygiene claims and reading mail interleave with them. */
  lemma {:induction false} ProductiveStepsBounded(cfg: Config, t: Target, states: seq<State>, events: seq<Event>)
    requires cfg.Lawful() && IsRun(cfg, states, events)
    requires forall i | 0 <= i < |events| :: Onward(t, states[i], events[i])
    ensures ProductiveSteps(t, states, events) + Measure(t, states[|events|].db) <= Measure(t, states[0].db)
    decreases |events|
  {
    hide Measure, Next, Enabled, Onward, Productive, NoneRises;
    if events != [] {
      var n := |events| - 1;
      ProductiveStepsBounded(cfg, t, states[..|states| - 1], events[..n]);
      assert Enabled(cfg, states[n], events[n]) && Onward(t, states[n], events[n]);
      OnwardMeasure(cfg, t, states[n], events[n]);
      OnwardStep(cfg, t, states[n], events[n]);
    }
  }

  /** A live run whose tables wait for nothing: the next call has nothing to send,
      so it cannot raise, and it ends the run. */
  lemma DrainedRunEnds(cfg: Config, t: Target, db: Db, ports: Ports, ans: Answers, now: int)
    requires cfg.Lawful() && t.cfg == cfg && Live(db, t.userId, t.runId) && t.scope == CallScope(cfg, db, t.runId, ans)
    requires Measure(t, db) == 0
    ensures var o := FinalizeCall(cfg, db, t.userId, Some(t.runId), ports, ans, now);
            && o.finished && !o.raised && o.sent == []
            && t.runId in o.db.runs && o.db.runs[t.runId].status
               == (if HasFatal(o.db, t.runId) then Failed else Complete)
  {
    hide FinalizeCall, Measure, ProgressSnapshot, Counted, OtherKeysKept, CostCents, HasFatal, AccountIdsFromStats;
    NothingDueSendsNothing(cfg, t, db, ports, ans, now);
    FinalizeEffect(cfg, db, t.userId, t.runId, ports, ans, now);
  }

  // -------------------------------------------------- claims and their messages

  // A message of the run that carries a claim's key is in the queues.
  ghost predicate HasMessage(s: State, k: ClaimKey) {
    exists m :: m in s.outbox && KeyOf(m) == Some(k)
  }

  // The run's digest and cluster claims were all sent for.
  ghost predicate ClaimsHaveMessages(s: State, r: Uuid) {
    && (Claimed(s.db, ClusterClaim(r)) ==> HasMessage(s, ClusterClaim(r)))
    && (forall c :: Claimed(s.db, CategoryClaim(r, c)) ==> HasMessage(s, CategoryClaim(r, c)))
  }

  // The run's closing transactions have a queue to send to.
  predicate HasQueues(e: Event, r: Uuid) {
    e.Finalize? && e.runId == r ==> e.ports.categorySender && e.ports.clusterSender
  }

  lemma MessagesLast(cfg: Config, s: State, e: Event, k: ClaimKey)
    requires HasMessage(s, k)
    ensures HasMessage(Next(cfg, s, e), k)
  {
    hide Close, ApplyWork, Edges;
    var m :| m in s.outbox && KeyOf(m) == Some(k);
    assert m in Next(cfg, s, e).outbox;
  }

  lemma ClosedClaimHasMessage(cfg: Config, s: State, e: Event, k: ClaimKey)
    requires cfg.Lawful() && e.Finalize? && !Close(cfg, s.db, e).raised && !k.HygieneClaim?
    requires k.CategoryClaim? && k.digestRun == e.runId ==> e.ports.categorySender
    requires !Claimed(s.db, k) && Claimed(Close(cfg, s.db, e).db, k)
    ensures HasMessage(Next(cfg, s, e), k)
  {
    hide FinalizeCall, Base, BuiltHere;
    var b, o := Base(s.db, e), Call(cfg, s.db, e);
    CloseIsCall(cfg, s.db, e);
    BaseDiffers(s.db, e);
    FinalizeIgnores(cfg, b, e.userId, Some(e.runId), e.ports, e.ans, e.now);
    ClaimsAreSends(cfg, b, e.userId, e.runId, e.ports, e.ans, e.now, k);
    NoBuiltHere(cfg, b, e, k);
    var m :| m in o.sent && KeyOf(m) == Some(k);
    assert m in Next(cfg, s, e).outbox;
  }

  lemma NoBuiltHere(cfg: Config, db: Db, e: Event, k: ClaimKey)
    requires e.Finalize? && e.runId in db.runs
    requires k.CategoryClaim? && k.digestRun == e.runId ==> e.ports.categorySender
    ensures !BuiltHere(cfg, db, e.runId, e.userId, e.ports, e.ans, k)
  {
  }

  lemma SmallStepClaims(cfg: Config, s: State, e: Event, k: ClaimKey, r: Uuid)
    requires Enabled(cfg, s, e) && !e.Finalize? && r in s.db.runs
    requires k == ClusterClaim(r) || (k.CategoryClaim? && k.digestRun == r)
    ensures Claimed(Next(cfg, s, e).db, k) ==> Claimed(s.db, k)
  {
    hide Close, ApplyWork, Edges;
  }

  /** Claim taken means message sent, at every step of a run with queue senders,
      rolled-back transactions included. */
  lemma ClaimsKeepMessages(cfg: Config, s: State, e: Event, r: Uuid)
    requires cfg.Lawful() && Enabled(cfg, s, e) && HasQueues(e, r) && r in s.db.runs && ClaimsHaveMessages(s, r)
    ensures ClaimsHaveMessages(Next(cfg, s, e), r)
  {
    hide Claimed, HasMessage, Enabled, Close, ApplyWork, Edges;
    var s' := Next(cfg, s, e);
    forall k: ClaimKey | (k == ClusterClaim(r) || (k.CategoryClaim? && k.digestRun == r)) && Claimed(s'.db, k)
      ensures HasMessage(s', k)
    {
      if Claimed(s.db, k) {
        MessagesLast(cfg, s, e, k);
      } else if e.Finalize? {
        ClosedClaimHasMessage(cfg, s, e, k);
      } else {
        SmallStepClaims(cfg, s, e, k, r);
      }
    }
  }

  // ------------------------------------------------------------ endless runs

  // Endless runs, as functions of time.
  ghost predicate IsEndless(cfg: Config, t: Target, states: nat -> State, events: nat -> Event) {
    forall i: nat :: StepAt(cfg, t, states, events, i)
  }

  ghost predicate StepAt(cfg: Config, t: Target, states: nat -> State, events: nat -> Event, i: nat) {
    && Enabled(cfg, states(i), events(i)) && states(i + 1) == Next(cfg, states(i), events(i))
    && Onward(t, states(i), events(i)) && HasQueues(events(i), t.runId)
  }

  ghost predicate ProductiveAt(t: Target, states: nat -> State, events: nat -> Event, i: nat) {
    events(i).RowWork? && Productive(t, states(i).db, events(i).w)
  }

  predicate FinalizesAt(t: Target, events: nat -> Event, i: nat) {
    events(i).Finalize? && events(i).userId == t.userId && events(i).runId == t.runId
  }

  // The row a message of the run asks for is still owed.
  predicate RowPending(t: Target, db: Db, m: Message) {
    match m
    case CategoryMessage(r, c) => r == t.runId && c in t.Missing(db)
    case ClusterMessage(_, r, _) => r == t.runId && t.Clusters(db) == 1
    case _ => false
  }

  // Row work that is the handling of that message: its digest row, or the cluster's
  // summary or failure row.
  predicate Handles(t: Target, m: Message, w: Work) {
    match m
    case CategoryMessage(r, c) => w == WriteDigest(r, c)
    case ClusterMessage(_, _, _) =>
      || (w.SummarizeCluster? && w.cluster == Cluster(t.userId, Some(t.runId)))
      || (w.LogCall? && ClusterError(w.row, t.runId))
    case _ => false
  }

  predicate HandledAt(t: Target, events: nat -> Event, m: Message, i: nat) {
    events(i).RowWork? && Handles(t, m, events(i).w)
  }

  // Mail work that is left is done sooner or later.
  ghost predicate MailFair(t: Target, states: nat -> State, events: nat -> Event) {
    forall i: nat :: t.Unclassified(states(i).db) != {} || t.Awaiting(states(i).db) != {} ==>
      exists j: nat :: i <= j && ProductiveAt(t, states, events, j)
  }

  // A message that was sent is handled sooner or later while its row is owed.
  // Nothing is said about digest and cluster work no message was sent for.
  ghost predicate MessageFair(t: Target, states: nat -> State, events: nat -> Event) {
    forall i: nat, m :: m in states(i).outbox && RowPending(t, states(i).db, m) ==>
      exists j: nat :: i <= j && (HandledAt(t, events, m, j) || !RowPending(t, states(j).db, m))
  }

  // Workers keep trying to finalize the run, and their sends go through.
  ghost predicate FinalizeFair(t: Target, events: nat -> Event) {
    forall i: nat :: FinalizedFrom(t, events, i)
  }

  ghost predicate FinalizedFrom(t: Target, events: nat -> Event, i: nat) {
    exists j: nat :: i <= j && FinalizesAt(t, events, j) && forall m :: !events(j).ports.sendFails(m)
  }

  ghost predicate Fair(t: Target, states: nat -> State, events: nat -> Event) {
    MailFair(t, states, events) && MessageFair(t, states, events) && FinalizeFair(t, events)
  }

  lemma {:induction false} NeverMoreWork(cfg: Config, t: Target, states: nat -> State, events: nat -> Event, i: nat,
      j: nat)
    requires cfg.Lawful() && IsEndless(cfg, t, states, events) && i <= j
    ensures Measure(t, states(j).db) <= Measure(t, states(i).db)
    ensures Measure(t, states(j).db) == Measure(t, states(i).db) ==>
              t.Clusters(states(j).db) == t.Clusters(states(i).db) && t.Missing(states(j).db) == t.Missing(states(i).db)
    ensures Forward(cfg, states(i).db, states(j).db)
    decreases j
  {
    hide Measure, Forward, Next, Enabled, Onward, PendingClusters, MissingCategories;
    if i == j {
      ForwardReflexive(cfg, states(i).db);
    } else {
      NeverMoreWork(cfg, t, states, events, i, j - 1);
      assert StepAt(cfg, t, states, events, j - 1);
      OnwardMeasure(cfg, t, states(j - 1), events(j - 1));
      StepForward(cfg, states(j - 1), events(j - 1));
      ForwardTransitive(cfg, states(i).db, states(j - 1).db, states(j).db);
    }
  }

  lemma {:induction false} AlwaysMessages(cfg: Config, t: Target, states: nat -> State, events: nat -> Event, i: nat)
    requires cfg.Lawful() && IsEndless(cfg, t, states, events)
    requires t.runId in states(0).db.runs && ClaimsHaveMessages(states(0), t.runId)
    ensures t.runId in states(i).db.runs && ClaimsHaveMessages(states(i), t.runId)
    decreases i
  {
    hide Enabled, Next, Onward, ClaimsHaveMessages, Forward, Measure;
    if i > 0 {
      AlwaysMessages(cfg, t, states, events, i - 1);
      assert StepAt(cfg, t, states, events, i - 1);
      ClaimsKeepMessages(cfg, states(i - 1), events(i - 1), t.runId);
      StepForward(cfg, states(i - 1), events(i - 1));
      RunRowLasts(cfg, states(i - 1).db, states(i).db, t.runId);
    }
  }

  lemma RunRowLasts(cfg: Config, a: Db, b: Db, r: Uuid)
    requires Forward(cfg, a, b) && r in a.runs
    ensures r in b.runs
  {
    assert RowForward(cfg, a, b, r);
  }

  // What is assumed of the run from its creation on: its owner, the account scope
  // recorded when it was created, as the fan-out does, and no claim without a
  // message, which for a new run means no claim.
  ghost predicate Watched(cfg: Config, t: Target, states: nat -> State, events: nat -> Event) {
    && t.cfg == cfg && IsEndless(cfg, t, states, events) && Fair(t, states, events)
    && t.runId in states(0).db.runs && states(0).db.runs[t.runId].userId == t.userId
    && t.scope != [] && AccountIdsFromStats(cfg, states(0).db.runs[t.runId].stats) == t.scope
    && ClaimsHaveMessages(states(0), t.runId)
  }

  ghost predicate Ended(t: Target, s: State) {
    t.runId in s.db.runs && Terminal(s.db.runs[t.runId].status)
  }

  lemma RowThen(cfg: Config, t: Target, a: Db, b: Db)
    requires Forward(cfg, a, b) && t.runId in a.runs && a.runs[t.runId].userId == t.userId
    requires t.scope != [] && AccountIdsFromStats(cfg, a.runs[t.runId].stats) == t.scope
    ensures t.runId in b.runs && b.runs[t.runId].userId == t.userId
        && AccountIdsFromStats(cfg, b.runs[t.runId].stats) == t.scope
  {
    hide AccountIdsFromStats, OtherKeysKept;
    assert RowForward(cfg, a, b, t.runId);
  }

  // The hygiene claim leaves the run, its scope and its counters as they are.
  lemma BaseCounts(cfg: Config, t: Target, db: Db, e: Event)
    requires e.Finalize?
    ensures var b := Base(db, e);
            && b.runs == db.runs && Measure(t, b) == Measure(t, db)
            && t.Unclassified(b) == t.Unclassified(db) && t.Awaiting(b) == t.Awaiting(db)
            && t.Clusters(b) == t.Clusters(db) && t.Missing(b) == t.Missing(db)
  {
    var b := Base(db, e);
    BaseDiffers(db, e);
    hide Base;
    SameItems(db, b, t.runId, t.scope);
    assert Members(b, t.runId, t.scope) == Members(db, t.runId, t.scope);
    assert t.Unclassified(b) == t.Unclassified(db);
    assert t.Awaiting(b) == t.Awaiting(db);
    assert RunNewsletters(b, t.runId, t.scope) == RunNewsletters(db, t.runId, t.scope);
    assert RunClusterSummaries(b, t.userId, t.runId) == RunClusterSummaries(db, t.userId, t.runId);
  }

  // A closing transaction of the run whose sends go through commits; it claims what
  // is due, and it ends the run if nothing is.
  lemma GoodClose(cfg: Config, t: Target, s: State, e: Event)
    requires cfg.Lawful() && t.cfg == cfg && Enabled(cfg, s, e) && HasQueues(e, t.runId)
    requires e.Finalize? && e.userId == t.userId && e.runId == t.runId && forall m :: !e.ports.sendFails(m)
    requires t.runId in s.db.runs && s.db.runs[t.runId].userId == t.userId && !Terminal(s.db.runs[t.runId].status)
    requires t.scope != [] && AccountIdsFromStats(cfg, s.db.runs[t.runId].stats) == t.scope
    ensures var s' := Next(cfg, s, e);
            && t.runId in s'.db.runs
            && (Measure(t, s.db) == 0 ==> Ended(t, s'))
            && (t.Unclassified(s.db) == {} && t.Awaiting(s.db) == {} ==>
                  && (forall c | c in t.Missing(s.db) :: Claimed(s'.db, CategoryClaim(t.runId, c)))
                  && (t.Clusters(s.db) == 1 ==> Claimed(s'.db, ClusterClaim(t.runId))))
  {
    hide FinalizeCall, Base, Measure, AccountIdsFromStats, PendingClusters, MissingCategories, NewestFirst;
    var b := Base(s.db, e);
    BaseCounts(cfg, t, s.db, e);
    CloseIsCall(cfg, s.db, e);
    EverythingDueIsClaimed(cfg, b, t.userId, t.runId, e.ports, e.ans, e.now);
    if Measure(t, s.db) == 0 { DrainedRunEnds(cfg, t, b, e.ports, e.ans, e.now); }
    if t.Unclassified(s.db) == {} && t.Awaiting(s.db) == {} && t.Clusters(s.db) == 1 {
      EnoughNewsletters(cfg, t, b, e.ans.newest);
    }
    hide NewestFirst;
  }

  lemma EnoughNewsletters(cfg: Config, t: Target, db: Db, newest: seq<Uuid>)
    requires t.Clusters(db) == 1
    ensures (forall e | e in RunNewsletters(db, t.runId, t.scope) :: e in db.emails)
    ensures NewestFirst(db, RunNewsletters(db, t.runId, t.scope), newest, MAX_CLUSTER_NEWSLETTERS)
        ==> |newest| >= MIN_CLUSTER_NEWSLETTERS
  {
  }

  // Something of what is due at a good close has a message, and is owed after it.
  lemma SomethingSent(cfg: Config, t: Target, s: State, r: Uuid) returns (m: Message)
    requires r == t.runId && ClaimsHaveMessages(s, r) && (t.Missing(s.db) != [] || t.Clusters(s.db) == 1)
    requires forall c | c in t.Missing(s.db) :: Claimed(s.db, CategoryClaim(r, c))
    requires t.Clusters(s.db) == 1 ==> Claimed(s.db, ClusterClaim(r))
    ensures m in s.outbox && RowPending(t, s.db, m)
  {
    hide PendingClusters, MissingCategories, Claimed;
    if t.Clusters(s.db) == 1 {
      m :| m in s.outbox && KeyOf(m) == Some(ClusterClaim(r));
    } else {
      var c := t.Missing(s.db)[0];
      assert HasMessage(s, CategoryClaim(r, c));
      m :| m in s.outbox && KeyOf(m) == Some(CategoryClaim(r, c));
    }
  }

  lemma HandlingLowers(cfg: Config, t: Target, s: State, e: Event, m: Message)
    requires e.RowWork? && RowPending(t, s.db, m) && Handles(t, m, e.w)
    ensures Measure(t, Next(cfg, s, e).db) < Measure(t, s.db)
  {
    hide Measure, PendingClusters, MissingCategories, ApplyWork;
    assert Productive(t, s.db, e.w);
    ProductiveLowers(t, s.db, e.w);
  }

  lemma StandingAt(cfg: Config, t: Target, states: nat -> State, events: nat -> Event, i: nat)
    requires cfg.Lawful() && Watched(cfg, t, states, events)
    ensures var db := states(i).db;
            && t.runId in db.runs && db.runs[t.runId].userId == t.userId
            && AccountIdsFromStats(cfg, db.runs[t.runId].stats) == t.scope && ClaimsHaveMessages(states(i), t.runId)
  {
    hide AccountIdsFromStats, Forward, IsEndless, ClaimsHaveMessages, Fair, Measure;
    NeverMoreWork(cfg, t, states, events, 0, i);
    RowThen(cfg, t, states(0).db, states(i).db);
    AlwaysMessages(cfg, t, states, events, i);
  }

  // A message whose row is owed is followed by less work.
  lemma MessageLowers(cfg: Config, t: Target, states: nat -> State, events: nat -> Event, i: nat, m: Message)
      returns (k: nat)
    requires cfg.Lawful() && Watched(cfg, t, states, events) && m in states(i).outbox && RowPending(t, states(i).db, m)
    ensures i <= k && Measure(t, states(k).db) < Measure(t, states(i).db)
  {
    hide Measure, PendingClusters, MissingCategories, AccountIdsFromStats, Next, Enabled, Onward, Handles;
    assert MessageFair(t, states, events);
    var j: nat :| i <= j && (HandledAt(t, events, m, j) || !RowPending(t, states(j).db, m));
    NeverMoreWork(cfg, t, states, events, i, j);
    if !RowPending(t, states(j).db, m) {
      k := j;
    } else {
      k := j + 1;
      assert StepAt(cfg, t, states, events, j);
      HandlingLowers(cfg, t, states(j), events(j), m);
    }
  }

  lemma WhatIsLeft(t: Target, db: Db)
    requires Measure(t, db) > 0 && t.Unclassified(db) == {} && t.Awaiting(db) == {}
    ensures t.Missing(db) != [] || t.Clusters(db) == 1
  {
  }

  // A good close with only messages left to send is followed by less work.
  lemma CloseLowers(cfg: Config, t: Target, states: nat -> State, events: nat -> Event, j: nat) returns (k: nat)
    requires cfg.Lawful() && Watched(cfg, t, states, events) && Measure(t, states(j).db) > 0 && !Ended(t, states(j))
    requires FinalizesAt(t, events, j) && forall m :: !events(j).ports.sendFails(m)
    requires t.Unclassified(states(j).db) == {} && t.Awaiting(states(j).db) == {}
    ensures j <= k && Measure(t, states(k).db) < Measure(t, states(j).db)
  {
    hide Measure, PendingClusters, MissingCategories, AccountIdsFromStats, Next, Enabled, Onward, Unclassified,
        AwaitingSummary;
    hide ClaimsHaveMessages, Forward, Fair, Claimed;
    StandingAt(cfg, t, states, events, j);
    assert StepAt(cfg, t, states, events, j);
    GoodClose(cfg, t, states(j), events(j));
    OnwardMeasure(cfg, t, states(j), events(j));
    k := j + 1;
    if Measure(t, states(j + 1).db) == Measure(t, states(j).db) {
      WhatIsLeft(t, states(j).db);
      StandingAt(cfg, t, states, events, j + 1);
      var m := SomethingSent(cfg, t, states(j + 1), t.runId);
      k := MessageLowers(cfg, t, states, events, j + 1, m);
    }
  }

  lemma MailLowers(cfg: Config, t: Target, states: nat -> State, events: nat -> Event, i: nat) returns (k: nat)
    requires cfg.Lawful() && Watched(cfg, t, states, events)
    requires t.Unclassified(states(i).db) != {} || t.Awaiting(states(i).db) != {}
    ensures i <= k && Measure(t, states(k).db) < Measure(t, states(i).db)
  {
    hide Measure, AccountIdsFromStats, Next, Enabled, Onward, Unclassified, AwaitingSummary, ClaimsHaveMessages,
        Productive, Forward;
    assert MailFair(t, states, events);
    var p: nat :| i <= p && ProductiveAt(t, states, events, p);
    NeverMoreWork(cfg, t, states, events, i, p);
    assert StepAt(cfg, t, states, events, p);
    OnwardStep(cfg, t, states(p), events(p));
    k := p + 1;
  }

  // While work is left there is less of it later, unless the run has ended.
  lemma LessWorkLater(cfg: Config, t: Target, states: nat -> State, events: nat -> Event, i: nat) returns (k: nat)
    requires cfg.Lawful() && Watched(cfg, t, states, events) && Measure(t, states(i).db) > 0
    ensures i <= k && (Ended(t, states(k)) || Measure(t, states(k).db) < Measure(t, states(i).db))
  {
    hide Measure, AccountIdsFromStats, Next, Unclassified, AwaitingSummary, ClaimsHaveMessages, Forward, Ended, StepAt;
    hide MailFair, MessageFair;
    assert FinalizedFrom(t, events, i);
    var j: nat :| i <= j && FinalizesAt(t, events, j) && forall m :: !events(j).ports.sendFails(m);
    NeverMoreWork(cfg, t, states, events, i, j);
    if Ended(t, states(j)) || Measure(t, states(j).db) < Measure(t, states(i).db) {
      k := j;
    } else if t.Unclassified(states(j).db) != {} || t.Awaiting(states(j).db) != {} {
      k := MailLowers(cfg, t, states, events, j);
    } else {
      k := CloseLowers(cfg, t, states, events, j);
    }
  }

  lemma {:induction false} WorkDrains(cfg: Config, t: Target, states: nat -> State, events: nat -> Event, i: nat)
      returns (k: nat)
    requires cfg.Lawful() && Watched(cfg, t, states, events)
    ensures i <= k && (Ended(t, states(k)) || Measure(t, states(k).db) == 0)
    decreases Measure(t, states(i).db)
  {
    hide Measure, Watched, Ended;
    if Measure(t, states(i).db) == 0 {
      k := i;
    } else {
      k := LessWorkLater(cfg, t, states, events, i);
      if !Ended(t, states(k)) { k := WorkDrains(cfg, t, states, events, k); }
    }
  }

  /** Every fair endless run ends the digest run. Mail work that is left is done
      sooner or later, a message that was sent is handled, finalize calls recur and
      their sends go through: then some finalize call makes the run complete or
      failed. That the cluster and digest messages are sent at all is proved. */
  lemma EveryFairRunEnds(cfg: Config, t: Target, states: nat -> State, events: nat -> Event) returns (k: nat)
    requires cfg.Lawful() && Watched(cfg, t, states, events)
    ensures Ended(t, states(k))
  {
    hide Measure, Enabled, Onward, AccountIdsFromStats, Next, ClaimsHaveMessages, Forward, PendingClusters,
        MissingCategories;
    k := WorkDrains(cfg, t, states, events, 0);
    if !Ended(t, states(k)) {
      assert FinalizedFrom(t, events, k);
      var j: nat :| k <= j && FinalizesAt(t, events, j) && forall m :: !events(j).ports.sendFails(m);
      NeverMoreWork(cfg, t, states, events, k, j);
      StandingAt(cfg, t, states, events, j);
      assert StepAt(cfg, t, states, events, j);
      k := j;
      if !Ended(t, states(j)) {
        GoodClose(cfg, t, states(j), events(j));
        k := j + 1;
      }
    }
  }
}

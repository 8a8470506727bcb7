/**
 What keeps a run from ending: a summary or a cluster that stays owed. Which events
 free it is told exactly, and both kinds are reached from an empty database.
 */
module RunStranding {
  import opened Wrappers
  import opened RunTables
  import opened RunTerms
  import opened RunMeasure
  import opened RunService
  import opened RunFinalizeLaws
  import opened RunDispatchLaws
  import opened RunLifecycle
  import opened RunLiveness

  datatype Owed = OwedSummary(mail: Uuid) | OwedCluster

  predicate StillOwed(t: Target, db: Db, o: Owed) {
    match o
    case OwedSummary(e) => e in t.Awaiting(db)
    case OwedCluster => t.Clusters(db) == 1
  }

  function Newsletters(t: Target, db: Db): set<Uuid> {
    RunNewsletters(db, t.runId, t.scope)
  }

  // The last but one newsletter of the run stops being one.
  predicate BreaksPair(t: Target, db: Db, mail: Uuid) {
    mail in Newsletters(t, db) && |Newsletters(t, db)| == 2
  }

  // The events after which the row is no longer owed.
  predicate Frees(t: Target, db: Db, e: Event, o: Owed) {
    match e
    case RowWork(w) => if o.OwedCluster? then WorkFreesCluster(t, db, w) else WorkFreesSummary(t, w, o.mail)
    case Ingest(id, email) =>
      && !(email.unread && email.accountId in t.scope)
      && if o.OwedCluster? then BreaksPair(t, db, id) else id == o.mail
    case _ => false
  }

  predicate WorkFreesSummary(t: Target, w: Work, mail: Uuid) {
    match w
    case Summarize(x) => x == mail
    case LogCall(row) => row.emailId == Some(mail) && FailsRun(row, t.runId)
    case MarkRead(x) => x == mail
    case Classify(x, verdict) => x == mail && !NeedsSummary(verdict)
    case _ => false
  }

  predicate WorkFreesCluster(t: Target, db: Db, w: Work) {
    match w
    case SummarizeCluster(_, cluster) => cluster == Cluster(t.userId, Some(t.runId))
    case LogCall(row) => ClusterError(row, t.runId)
    case MarkRead(x) => BreaksPair(t, db, x)
    case Classify(x, verdict) => !verdict.isNewsletter && BreaksPair(t, db, x)
    case _ => false
  }

  // ------------------------------------------------------------- step by step

  lemma SummaryFreedByWork(t: Target, db: Db, w: Work, mail: Uuid)
    requires mail in t.Awaiting(db)
    ensures mail in t.Awaiting(ApplyWork(db, w)) <==> !WorkFreesSummary(t, w, mail)
  {
    assert Members(ApplyWork(db, w), t.runId, t.scope) == Members(db, t.runId, t.scope);
    if w.LogCall? { FatalForAppend(db, w.row, t.runId, mail); }
  }

  lemma PairAfter(before: set<Uuid>, after: set<Uuid>, mail: Uuid)
    requires |before| >= 2 && (before <= after || (mail in before && after == before - {mail}))
    ensures |after| < 2 <==> !(before <= after) && |before| == 2
  {
    if before <= after { SubsetCardinality(before, after); }
  }

  // The newsletters after row work on one mail.
  lemma NewslettersAfter(t: Target, db: Db, w: Work)
    ensures var before, after := Newsletters(t, db), Newsletters(t, ApplyWork(db, w));
            match w
            case MarkRead(x) => after == before - {x}
            case Classify(x, verdict) => if verdict.isNewsletter then before <= after else after == before - {x}
            case _ => after == before
  {
    var db' := ApplyWork(db, w);
    assert Members(db', t.runId, t.scope) == Members(db, t.runId, t.scope);
    var before, after := Newsletters(t, db), Newsletters(t, db');
    match w {
      case MarkRead(x) => assert after == before - {x};
      case Classify(x, verdict) =>
        if !verdict.isNewsletter { assert after == before - {x}; } else { assert before <= after; }
      case _ => assert after == before;
    }
  }

  lemma ClusterFreedByWork(t: Target, db: Db, w: Work)
    requires t.Clusters(db) == 1
    ensures t.Clusters(ApplyWork(db, w)) == 1 <==> !WorkFreesCluster(t, db, w)
  {
    var db' := ApplyWork(db, w);
    NewslettersAfter(t, db, w);
    hide RunNewsletters;
    var before, after := Newsletters(t, db), Newsletters(t, db');
    match w {
      case MarkRead(x) =>
        if x in before { PairAfter(before, after, x); } else { assert after == before; }
      case Classify(x, verdict) =>
        if x in before || verdict.isNewsletter { PairAfter(before, after, x); } else { assert after == before; }
      case LogCall(row) => ClusterFailedAppend(db, row, t.runId);
      case SummarizeCluster(k, cluster) =>
        if cluster == Cluster(t.userId, Some(t.runId)) { assert k in RunClusterSummaries(db', t.userId, t.runId); }
      case _ =>
    }
  }

  lemma FreedByIngest(t: Target, db: Db, id: Uuid, email: Email, o: Owed)
    requires StillOwed(t, db, o)
    ensures var db' := db.(emails := db.emails[id := email]);
            StillOwed(t, db', o) <==> !Frees(t, db, Ingest(id, email), o)
  {
    var db' := db.(emails := db.emails[id := email]);
    if o.OwedCluster? {
      var before, after := Newsletters(t, db), Newsletters(t, db');
      if id in before && !(email.unread && email.accountId in t.scope) {
        assert after == before - {id};
      } else {
        assert before <= after;
      }
      PairAfter(before, after, id);
      assert RunClusterSummaries(db', t.userId, t.runId) == RunClusterSummaries(db, t.userId, t.runId);
    }
  }

  lemma KeptByStamp(t: Target, db: Db, db': Db, o: Owed)
    requires db' == db.(members := db'.members) && db.members <= db'.members && StillOwed(t, db, o)
    ensures StillOwed(t, db', o)
  {
    if o.OwedCluster? {
      assert Newsletters(t, db) <= Newsletters(t, db');
      SubsetCardinality(Newsletters(t, db), Newsletters(t, db'));
      assert RunClusterSummaries(db', t.userId, t.runId) == RunClusterSummaries(db, t.userId, t.runId);
    }
  }

  lemma KeptByClose(cfg: Config, t: Target, s: State, e: Event, o: Owed)
    requires cfg.Lawful() && e.Finalize? && StillOwed(t, s.db, o)
    ensures StillOwed(t, Next(cfg, s, e).db, o)
  {
    hide Close, PendingClusters, AwaitingSummary;
    if !Close(cfg, s.db, e).raised { CloseRaisesNothing(cfg, t, s.db, e); }
  }

  /** Exactly which step frees an owed row. */
  lemma FreedExactly(cfg: Config, t: Target, s: State, e: Event, o: Owed)
    requires cfg.Lawful() && Enabled(cfg, s, e) && StillOwed(t, s.db, o)
    ensures StillOwed(t, Next(cfg, s, e).db, o) <==> !Frees(t, s.db, e, o)
  {
    hide Close, ApplyWork, PendingClusters, AwaitingSummary, Newsletters, Edges, AnswersFit;
    match e {
      case RowWork(w) =>
        if o.OwedCluster? { ClusterFreedByWork(t, s.db, w); } else { SummaryFreedByWork(t, s.db, w, o.mail); }
      case Ingest(id, email) => FreedByIngest(t, s.db, id, email, o);
      case Stamp(_, _) => KeptByStamp(t, s.db, Next(cfg, s, e).db, o);
      case Finalize(_, _, _, _, _, _) => KeptByClose(cfg, t, s, e, o);
      case _ => DigestCallsRaiseNothing(t, s.db, Next(cfg, s, e).db);
    }
  }

  // ------------------------------------------------------------- for all time

  ghost predicate OwedThroughout(t: Target, states: seq<State>, o: Owed, i: nat, j: nat)
    requires j < |states|
  {
    forall k | i <= k <= j :: StillOwed(t, states[k].db, o)
  }

  ghost predicate NoneFrees(t: Target, states: seq<State>, events: seq<Event>, o: Owed, i: nat, j: nat)
    requires j <= |events| < |states|
  {
    forall k | i <= k < j :: !Frees(t, states[k].db, events[k], o)
  }

  lemma OwedOnceMore(t: Target, states: seq<State>, o: Owed, i: nat, j: nat)
    requires i < j < |states| && OwedThroughout(t, states, o, i, j - 1)
    ensures OwedThroughout(t, states, o, i, j) <==> StillOwed(t, states[j].db, o)
  {
    hide StillOwed;
    if StillOwed(t, states[j].db, o) {
      forall k | i <= k <= j ensures StillOwed(t, states[k].db, o) {
        assert k == j || k <= j - 1;
      }
    }
  }

  /** Over every run: a row is owed throughout exactly when no step frees it. */
  lemma {:induction false} OwedUntilFreed(cfg: Config, t: Target, states: seq<State>, events: seq<Event>, o: Owed,
      i: nat, j: nat)
    requires cfg.Lawful() && IsRun(cfg, states, events) && i <= j < |states| && StillOwed(t, states[i].db, o)
    ensures OwedThroughout(t, states, o, i, j) <==> NoneFrees(t, states, events, o, i, j)
    decreases j
  {
    hide Next, Enabled, StillOwed, Frees;
    if i < j {
      var s, e := states[j - 1], events[j - 1];
      OwedUntilFreed(cfg, t, states, events, o, i, j - 1);
      assert Enabled(cfg, s, e);
      if OwedThroughout(t, states, o, i, j - 1) {
        FreedExactly(cfg, t, s, e, o);
        assert states[j] == Next(cfg, s, e);
        OwedOnceMore(t, states, o, i, j);
        assert NoneFrees(t, states, events, o, i, j) <==> !Frees(t, s.db, e, o);
      } else {
        assert !OwedThroughout(t, states, o, i, j) && !NoneFrees(t, states, events, o, i, j);
      }
    }
  }

  // The run goes on, with its owner and recorded scope.
  ghost predicate GoesOn(cfg: Config, t: Target, db: Db) {
    Live(db, t.userId, t.runId) && t.scope != [] && AccountIdsFromStats(cfg, db.runs[t.runId].stats) == t.scope
  }

  lemma OwedCounts(t: Target, db: Db, o: Owed)
    requires StillOwed(t, db, o) && t.scope != []
    ensures ProgressSnapshot(t.cfg, db, t.userId, t.runId, t.scope).PendingTotal() > 0
  {
    if o.OwedSummary? { assert t.Awaiting(db) != {}; }
  }

  lemma CallGoesOn(cfg: Config, t: Target, db: Db, e: Event, o: Owed)
    requires cfg.Lawful() && t.cfg == cfg && e.Finalize? && GoesOn(cfg, t, db)
    requires var c := FinalizeCall(cfg, db, e.userId, Some(e.runId), e.ports, e.ans, e.now);
        !c.raised && StillOwed(t, c.db, o)
    ensures GoesOn(cfg, t, FinalizeCall(cfg, db, e.userId, Some(e.runId), e.ports, e.ans, e.now).db)
  {
    hide FinalizeCall, AccountIdsFromStats, ProgressSnapshot, Counted, OtherKeysKept, HasFatal, CostCents, StillOwed;
    var c := FinalizeCall(cfg, db, e.userId, Some(e.runId), e.ports, e.ans, e.now);
    FinalizeIgnores(cfg, db, e.userId, Some(e.runId), e.ports, e.ans, e.now);
    OwedCounts(t, c.db, o);
    if Live(db, e.userId, e.runId) { FinalizeEffect(cfg, db, e.userId, e.runId, e.ports, e.ans, e.now); }
  }

  // While something is owed no step ends the run.
  lemma StepGoesOn(cfg: Config, t: Target, s: State, e: Event, o: Owed)
    requires cfg.Lawful() && t.cfg == cfg && Enabled(cfg, s, e) && GoesOn(cfg, t, s.db)
        && StillOwed(t, Next(cfg, s, e).db, o)
    ensures GoesOn(cfg, t, Next(cfg, s, e).db)
  {
    hide AccountIdsFromStats, StillOwed, AnswersFit, ApplyWork, Edges, FinalizeCall, Base;
    if e.Finalize? {
      CloseIsCall(cfg, s.db, e);
      BaseDiffers(s.db, e);
      if !Close(cfg, s.db, e).raised { CallGoesOn(cfg, t, Base(s.db, e), e, o); }
    }
  }

  // No cluster message of the run was added to a longer queue.
  ghost predicate NoClusterSent(before: State, after: State, r: Uuid) {
    && before.outbox <= after.outbox
    && forall k | |before.outbox| <= k < |after.outbox| :: KeyOf(after.outbox[k]) != Some(ClusterClaim(r))
  }

  lemma StepSendsNoCluster(cfg: Config, s: State, e: Event, r: Uuid)
    requires cfg.Lawful() && Enabled(cfg, s, e) && Claimed(s.db, ClusterClaim(r))
    ensures NoClusterSent(s, Next(cfg, s, e), r)
  {
    hide Close, ApplyWork, Edges, AnswersFit, Claimed;
    var s' := Next(cfg, s, e);
    forall k | |s.outbox| <= k < |s'.outbox| ensures KeyOf(s'.outbox[k]) != Some(ClusterClaim(r)) {
      assert s'.outbox[k] in Sent(cfg, s, e);
      SentMeansFree(cfg, s, e, s'.outbox[k]);
    }
  }

  lemma NoClusterSentTransitive(a: State, b: State, c: State, r: Uuid)
    requires NoClusterSent(a, b, r) && NoClusterSent(b, c, r)
    ensures NoClusterSent(a, c, r)
  {
    forall k | |a.outbox| <= k < |c.outbox| ensures KeyOf(c.outbox[k]) != Some(ClusterClaim(r)) {
      if k < |b.outbox| { assert c.outbox[k] == b.outbox[k]; }
    }
  }

  /** For all time: a run that owes a row goes on until a step frees it, whatever
      finalize calls are made, inline builders and failing sends included. Once its
      cluster is claimed no message asks for it again. */
  lemma {:induction false} OwedRunGoesOn(cfg: Config, t: Target, states: seq<State>, events: seq<Event>, o: Owed,
      i: nat, j: nat)
    requires cfg.Lawful() && t.cfg == cfg && IsRun(cfg, states, events) && i <= j < |states|
    requires StillOwed(t, states[i].db, o) && GoesOn(cfg, t, states[i].db)
    requires NoneFrees(t, states, events, o, i, j)
    ensures StillOwed(t, states[j].db, o) && GoesOn(cfg, t, states[j].db)
    ensures Claimed(states[i].db, ClusterClaim(t.runId)) ==>
              Claimed(states[j].db, ClusterClaim(t.runId)) && NoClusterSent(states[i], states[j], t.runId)
    decreases j
  {
    hide Next, Enabled, StillOwed, Frees, GoesOn, Claimed, Forward, KeyOf;
    if i < j {
      OwedRunGoesOn(cfg, t, states, events, o, i, j - 1);
      var s, e := states[j - 1], events[j - 1];
      assert Enabled(cfg, s, e);
      FreedExactly(cfg, t, s, e, o);
      StepGoesOn(cfg, t, s, e, o);
      if Claimed(states[i].db, ClusterClaim(t.runId)) {
        StepForward(cfg, s, e);
        ClaimsLast(cfg, s.db, states[j].db, ClusterClaim(t.runId));
        StepSendsNoCluster(cfg, s, e, t.runId);
        NoClusterSentTransitive(states[i], s, states[j], t.runId);
      }
    }
  }

  // -------------------------------------------------------------- reached states

  const EMPTY_DB := Db(map[], map[], map[], map[], {}, map[], {}, map[], {}, {}, [], {}, {})

  // A queued run of user 0 over account 0, as the fan-out creates it.
  function NewRun(cfg: Config): Run {
    Run(0, Queued, None, JObject(map["account_ids" := JList(PrintIds(cfg, [0]))]), None, None, None)
  }

  function Watch(cfg: Config): Target {
    Target(cfg, 0, 0, [0])
  }

  lemma NewRunScope(cfg: Config)
    requires cfg.Lawful()
    ensures AccountIdsFromStats(cfg, NewRun(cfg).stats) == [0]
  {
    ParsePrinted(cfg, [0]);
  }

  ghost predicate Reaches(cfg: Config, states: seq<State>, events: seq<Event>, s: State) {
    && IsRun(cfg, states, events) && states[0] == State(EMPTY_DB, []) && states[|events|] == s
  }

  lemma OneStepMore(cfg: Config, states: seq<State>, events: seq<Event>, s: State, e: Event)
    requires Reaches(cfg, states, events, s) && Enabled(cfg, s, e)
    ensures Reaches(cfg, states + [Next(cfg, s, e)], events + [e], Next(cfg, s, e))
  {
    hide Next, Enabled;
    var states', events' := states + [Next(cfg, s, e)], events + [e];
    forall i | 0 <= i < |events'|
      ensures Enabled(cfg, states'[i], events'[i]) && states'[i + 1] == Next(cfg, states'[i], events'[i])
    {
      if i < |events| { assert Enabled(cfg, states[i], events[i]) && states[i + 1] == Next(cfg, states[i], events[i]); }
    }
  }

  // The first three steps: a run and its mails.
  function WithMails(cfg: Config, mails: map<Uuid, Email>): Db {
    EMPTY_DB.(runs := map[0 := NewRun(cfg)], emails := mails, members := Edges(0, [1, 2]))
  }

  function Mail(date: int): Email { Email(0, date, true) }

  lemma MailsReached(cfg: Config) returns (states: seq<State>, events: seq<Event>)
    ensures Reaches(cfg, states, events, State(WithMails(cfg, map[1 := Mail(10), 2 := Mail(20)]), []))
  {
    var s := State(EMPTY_DB, []);
    states, events := [s], [];
    var e := CreateRun(0, NewRun(cfg));
    OneStepMore(cfg, states, events, s, e);
    states, events, s := states + [Next(cfg, s, e)], events + [e], Next(cfg, s, e);
    e := Ingest(1, Mail(10));
    OneStepMore(cfg, states, events, s, e);
    states, events, s := states + [Next(cfg, s, e)], events + [e], Next(cfg, s, e);
    e := Ingest(2, Mail(20));
    OneStepMore(cfg, states, events, s, e);
    states, events, s := states + [Next(cfg, s, e)], events + [e], Next(cfg, s, e);
    e := Stamp(0, [1, 2]);
    OneStepMore(cfg, states, events, s, e);
    states, events, s := states + [Next(cfg, s, e)], events + [e], Next(cfg, s, e);
    assert s.db.runs == map[0 := NewRun(cfg)] && s.db.emails == map[1 := Mail(10), 2 := Mail(20)];
    assert s.db.members == Edges(0, [1, 2]);
  }

  lemma {:induction false} WorkReached(cfg: Config, states: seq<State>, events: seq<Event>, s: State, work: seq<Work>)
    returns (states': seq<State>, events': seq<Event>)
    requires Reaches(cfg, states, events, s)
    ensures Reaches(cfg, states', events', s.(db := AllWork(s.db, work)))
    decreases |work|
  {
    hide ApplyWork;
    if work == [] {
      states', events' := states, events;
    } else {
      var e := RowWork(work[0]);
      OneStepMore(cfg, states, events, s, e);
      states', events' := WorkReached(cfg, states + [Next(cfg, s, e)], events + [e], Next(cfg, s, e), work[1..]);
    }
  }

  function AllWork(db: Db, work: seq<Work>): Db
    decreases |work|
  {
    if work == [] then db else AllWork(ApplyWork(db, work[0]), work[1..])
  }

  // ---------------------------------------------------- a stranded cluster

  const NEWSLETTER := Classification(Ignore, true)

  // Two newsletters, classified and summarized.
  function TwoNewsletters(cfg: Config): Db {
    WithMails(cfg, map[1 := Mail(10), 2 := Mail(20)]).(
      classifications := map[1 := NEWSLETTER, 2 := NEWSLETTER], emailSummaries := {1, 2})
  }

  lemma TwoNewslettersReached(cfg: Config) returns (states: seq<State>, events: seq<Event>)
    ensures Reaches(cfg, states, events, State(TwoNewsletters(cfg), []))
  {
    var start := WithMails(cfg, map[1 := Mail(10), 2 := Mail(20)]);
    states, events := MailsReached(cfg);
    var work := [Classify(1, NEWSLETTER), Classify(2, NEWSLETTER), Summarize(1), Summarize(2)];
    states, events := WorkReached(cfg, states, events, State(start, []), work);
    FourSteps(start, work);
    var db := AllWork(start, work);
    assert db.classifications == map[1 := NEWSLETTER, 2 := NEWSLETTER] && db.emailSummaries == {1, 2};
  }

  lemma FourSteps(db: Db, work: seq<Work>)
    requires |work| == 4
    ensures AllWork(db, work) == ApplyWork(ApplyWork(ApplyWork(ApplyWork(db, work[0]), work[1]), work[2]), work[3])
  {
    hide ApplyWork;
    var a, b, c := work[1..], work[2..], work[3..];
    assert a[1..] == b && b[1..] == c && c[1..] == [] && a[0] == work[1] && b[0] == work[2] && c[0] == work[3];
    var d1 := ApplyWork(db, work[0]);
    var d2 := ApplyWork(d1, work[1]);
    var d3 := ApplyWork(d2, work[2]);
    assert AllWork(db, work) == AllWork(d1, a) == AllWork(d2, b) == AllWork(d3, c);
    assert AllWork(d3, c) == AllWork(ApplyWork(d3, work[3]), []);
  }

  lemma TwoNewslettersOwe(cfg: Config)
    requires cfg.Lawful() && cfg.clusteringEnabled
    ensures var t, db := Watch(cfg), TwoNewsletters(cfg);
            && Newsletters(t, db) == {1, 2} && t.Clusters(db) == 1
            && t.Unclassified(db) == {} && t.Awaiting(db) == {} && t.Missing(db) == []
            && GoesOn(cfg, t, db) && !Claimed(db, ClusterClaim(0))
  {
    var t, db := Watch(cfg), TwoNewsletters(cfg);
    NewRunScope(cfg);
    assert (0, 1) in db.members && (0, 2) in db.members;
    assert Members(db, 0, [0]) == {1, 2};
    assert Newsletters(t, db) == {1, 2};
    assert |{1, 2}| == 2;
    assert RunClusterSummaries(db, 0, 0) == {};
    assert !ClusterFailed(db, 0);
  }

  // A queue that takes every message.
  const OPEN_QUEUE := Ports(true, None, true, m => false)

  function ClosingCall(): Event {
    Finalize(0, 0, None, OPEN_QUEUE, Answers([], [2, 1]), 0)
  }

  lemma ClosingCallFits(cfg: Config)
    requires cfg.Lawful() && cfg.clusteringEnabled
    ensures Enabled(cfg, State(TwoNewsletters(cfg), []), ClosingCall())
  {
    TwoNewslettersOwe(cfg);
    var db := TwoNewsletters(cfg);
    hide ProgressSnapshot, TwoNewsletters, AccountIdsFromStats;
    TwoNewslettersDates(cfg);
    assert |{1, 2}| == 2;
    assert NewestFirst(db, {1, 2}, [2, 1], MAX_CLUSTER_NEWSLETTERS);
  }

  lemma TwoNewslettersDates(cfg: Config)
    ensures TwoNewsletters(cfg).emails == map[1 := Mail(10), 2 := Mail(20)] && 0 in TwoNewsletters(cfg).runs
  {
  }

  /** Reached from an empty database: a live run whose cluster is claimed and sent
      for, and which waits for the cluster alone. */
  lemma ClusterOwedIsReached(cfg: Config) returns (states: seq<State>, events: seq<Event>, s: State)
    requires cfg.Lawful() && cfg.clusteringEnabled
    ensures Reaches(cfg, states, events, s)
    ensures GoesOn(cfg, Watch(cfg), s.db) && StillOwed(Watch(cfg), s.db, OwedCluster) && Measure(Watch(cfg), s.db) == 1
    ensures Claimed(s.db, ClusterClaim(0)) && HasMessage(s, ClusterClaim(0))
  {
    var t, before, e := Watch(cfg), State(TwoNewsletters(cfg), []), ClosingCall();
    states, events := TwoNewslettersReached(cfg);
    TwoNewslettersOwe(cfg);
    ClosingCallFits(cfg);
    OneStepMore(cfg, states, events, before, e);
    s := Next(cfg, before, e);
    states, events := states + [s], events + [e];
    ClusterSentFor(cfg, before, e);
  }

  lemma ClusterSentFor(cfg: Config, before: State, e: Event)
    requires cfg.Lawful() && cfg.clusteringEnabled && before == State(TwoNewsletters(cfg), []) && e == ClosingCall()
    requires Enabled(cfg, before, e)
    ensures var t, s := Watch(cfg), Next(cfg, before, e);
            && GoesOn(cfg, t, s.db) && StillOwed(t, s.db, OwedCluster) && Measure(t, s.db) == 1
            && Claimed(s.db, ClusterClaim(0)) && HasMessage(s, ClusterClaim(0))
  {
    var t, s := Watch(cfg), Next(cfg, before, e);
    TwoNewslettersOwe(cfg);
    hide TwoNewsletters, Next, AccountIdsFromStats, Close, PendingClusters, Unclassified, AwaitingSummary,
        MissingCategories, Enabled;
    NoneAwaited(t, before.db);
    GoodClose(cfg, t, before, e);
    FreedExactly(cfg, t, before, e, OwedCluster);
    StepGoesOn(cfg, t, before, e, OwedCluster);
    OnwardMeasure(cfg, t, before, e);
    NoClaimsYet(cfg);
    ClaimsKeepMessages(cfg, before, e, 0);
    OwedMeasure(t, s.db);
  }

  lemma NoneAwaited(t: Target, db: Db)
    requires t.Unclassified(db) == {} && t.Awaiting(db) == {} && t.Missing(db) == [] && t.Clusters(db) == 1
    ensures Measure(t, db) == 1
  {
  }

  lemma OwedMeasure(t: Target, db: Db)
    requires t.Clusters(db) == 1
    ensures Measure(t, db) >= 1
  {
  }

  lemma NoClaimsYet(cfg: Config)
    ensures ClaimsHaveMessages(State(TwoNewsletters(cfg), []), 0) && 0 in TwoNewsletters(cfg).runs
  {
  }

  // ---------------------------------------------------- a stranded summary

  const DUE_MAIL := Classification(MustRead, false)

  // One mail to read, classified and not summarized, and one that is ignored.
  function OneDueMail(cfg: Config): Db {
    WithMails(cfg, map[1 := Mail(10), 2 := Mail(20)]).(
      classifications := map[1 := DUE_MAIL, 2 := Classification(Ignore, false)])
  }

  /** Reached from an empty database: a live run that waits for one summary. */
  lemma SummaryOwedIsReached(cfg: Config) returns (states: seq<State>, events: seq<Event>)
    requires cfg.Lawful()
    ensures Reaches(cfg, states, events, State(OneDueMail(cfg), []))
    ensures var t, db := Watch(cfg), OneDueMail(cfg);
            GoesOn(cfg, t, db) && StillOwed(t, db, OwedSummary(1)) && Measure(t, db) == 2
  {
    var t, db := Watch(cfg), OneDueMail(cfg);
    var start := WithMails(cfg, map[1 := Mail(10), 2 := Mail(20)]);
    states, events := MailsReached(cfg);
    var work := [Classify(1, DUE_MAIL), Classify(2, Classification(Ignore, false))];
    states, events := WorkReached(cfg, states, events, State(start, []), work);
    TwoSteps(start, work);
    assert AllWork(start, work).classifications == db.classifications;
    OneDueMailOwes(cfg);
  }

  lemma TwoSteps(db: Db, work: seq<Work>)
    requires |work| == 2
    ensures AllWork(db, work) == ApplyWork(ApplyWork(db, work[0]), work[1])
  {
    hide ApplyWork;
    var a := work[1..];
    assert a[1..] == [] && a[0] == work[1];
    var d1 := ApplyWork(db, work[0]);
    assert AllWork(db, work) == AllWork(d1, a) == AllWork(ApplyWork(d1, work[1]), []);
  }

  lemma OneDueMailOwes(cfg: Config)
    requires cfg.Lawful()
    ensures var t, db := Watch(cfg), OneDueMail(cfg);
            GoesOn(cfg, t, db) && StillOwed(t, db, OwedSummary(1)) && Measure(t, db) == 2
  {
    var t, db := Watch(cfg), OneDueMail(cfg);
    NewRunScope(cfg);
    assert (0, 1) in db.members && (0, 2) in db.members;
    assert Members(db, 0, [0]) == {1, 2};
    assert t.Unclassified(db) == {};
    assert t.Awaiting(db) == {1};
    assert Newsletters(t, db) == {};
    forall b ensures CategoryItems(db, 0, [0], b) == {} {
    }
  }
}

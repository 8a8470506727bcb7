/**
 The digest-run lifecycle as a transition system over the committed tables.

 One event is one committed effect of a stage: the row work of a handler, or the
 transaction that ends it, in which a hygiene claim may come before the finalize
 call. When a send in it raises the transaction is rolled back: the tables stay as
 they were and only the messages already sent remain.
 */
module RunLifecycle {
  import opened Wrappers
  import opened RunTables
  import opened RunTerms
  import opened RunMeasure
  import opened RunService
  import opened RunFinalizeLaws
  import opened RunVerdicts

  datatype State = State(db: Db, outbox: seq<Message>)

  datatype Event =
    | RowWork(w: Work)
    | Ingest(emailId: Uuid, email: Email)
    | Stamp(stampRun: Uuid, emailIds: seq<Uuid>)
    | CreateRun(newRun: Uuid, run: Run)
    | MarkRunning(markRun: Uuid)
    | Finalize(userId: Uuid, runId: Uuid, hygiene: Option<Uuid>, ports: Ports, ans: Answers, now: int)

  // Whether the closing transaction takes the hygiene claim of an account first.
  predicate Hygienic(db: Db, e: Event)
    requires e.Finalize?
  {
    e.hygiene.Some? && CanClaim(db, HygieneClaim(e.runId, e.hygiene.value))
  }

  function HygieneJob(e: Event): Message
    requires e.Finalize? && e.hygiene.Some?
  {
    HygieneMessage(e.userId, e.hygiene.value, Some(e.runId))
  }

  // The tables its finalize call starts from.
  function Base(db: Db, e: Event): Db
    requires e.Finalize?
  {
    if Hygienic(db, e) then TakeClaim(db, HygieneClaim(e.runId, e.hygiene.value), e.now) else db
  }

  function Call(cfg: Config, db: Db, e: Event): Outcome
    requires e.Finalize?
  {
    FinalizeCall(cfg, Base(db, e), e.userId, Some(e.runId), e.ports, e.ans, e.now)
  }

  // The whole closing transaction.
  function Close(cfg: Config, db: Db, e: Event): Outcome
    requires e.Finalize?
  {
    if !Hygienic(db, e) then Call(cfg, db, e)
    else if e.ports.sendFails(HygieneJob(e)) then Outcome(db, [], false, true)
    else
      var o := Call(cfg, db, e);
      o.(sent := [HygieneJob(e)] + o.sent)
  }

  ghost predicate Enabled(cfg: Config, s: State, e: Event) {
    match e
    case CreateRun(r, run) => r !in s.db.runs && run.status == Queued && run.clusterEnqueuedAt.None?
    case MarkRunning(r) => r in s.db.runs
    case Stamp(r, ids) => r in s.db.runs && forall x | x in ids :: x in s.db.emails
    case Finalize(u, r, _, ports, ans, _) =>
      Live(Base(s.db, e), u, r) ==> AnswersFit(cfg, Base(s.db, e), u, r, ports, ans)
    case _ => true
  }

  function Commit(s: State, o: Outcome): State {
    State(if o.raised then s.db else o.db, s.outbox + o.sent)
  }

  function Next(cfg: Config, s: State, e: Event): State {
    match e
    case RowWork(w) => s.(db := ApplyWork(s.db, w))
    case Ingest(id, email) => s.(db := s.db.(emails := s.db.emails[id := email]))
    case Stamp(r, ids) => s.(db := s.db.(members := s.db.members + Edges(r, ids)))
    case CreateRun(r, run) => s.(db := s.db.(runs := s.db.runs[r := run]))
    case MarkRunning(r) => if r in s.db.runs then s.(db := StartRunning(s.db, r)) else s
    case Finalize(_, _, _, _, _, _) => Commit(s, Close(cfg, s.db, e))
  }

  // The messages an event adds to the queues, and whether its transaction commits.
  function Sent(cfg: Config, s: State, e: Event): seq<Message> {
    Next(cfg, s, e).outbox[|s.outbox|..]
  }

  predicate Commits(cfg: Config, s: State, e: Event) {
    e.Finalize? ==> !Close(cfg, s.db, e).raised
  }

  ghost predicate IsRun(cfg: Config, states: seq<State>, events: seq<Event>) {
    && |states| == |events| + 1
    && forall i | 0 <= i < |events| ::
         Enabled(cfg, states[i], events[i]) && states[i + 1] == Next(cfg, states[i], events[i])
  }

  // The hygiene claim changes one table and nothing else.
  lemma BaseDiffers(db: Db, e: Event)
    requires e.Finalize?
    ensures var b := Base(db, e);
            && b == db.(hygieneClaims := b.hygieneClaims) && db.hygieneClaims <= b.hygieneClaims
            && (forall p | p in b.hygieneClaims ::
                  p in db.hygieneClaims || (Hygienic(db, e) && p == (e.runId, e.hygiene.value)))
            && (Hygienic(db, e) ==>
                  (e.runId, e.hygiene.value) in b.hygieneClaims && (e.runId, e.hygiene.value) !in db.hygieneClaims)
  {
  }

  lemma CloseIsCall(cfg: Config, db: Db, e: Event)
    requires e.Finalize?
    ensures var c, o := Close(cfg, db, e), Call(cfg, db, e);
            && (!c.raised ==> !o.raised && c.db == o.db && c.finished == o.finished)
            && (forall m | m in c.sent :: m in o.sent || (Hygienic(db, e) && m == HygieneJob(e)))
            && (!c.raised ==> forall m | m in o.sent :: m in c.sent)
  {
    hide FinalizeCall;
  }

  // ------------------------------------------------------------ run rows over time

  function Rank(s: RunStatus): nat {
    match s
    case Queued => 0
    case Running => 1
    case _ => 2
  }

  // How a run row may differ later on.
  ghost predicate RowForward(cfg: Config, before: Db, after: Db, r: Uuid) {
    r in before.runs ==>
      && r in after.runs
      && (var run, run' := before.runs[r], after.runs[r];
          && run'.userId == run.userId
          && Rank(run.status) <= Rank(run'.status)
          && (Terminal(run.status) ==> run' == run)
          && (run.clusterEnqueuedAt.Some? ==> run'.clusterEnqueuedAt == run.clusterEnqueuedAt)
          && OtherKeysKept(run.stats, run'.stats)
          && (AccountIdsFromStats(cfg, run.stats) != [] ==>
                AccountIdsFromStats(cfg, run'.stats) == AccountIdsFromStats(cfg, run.stats)))
  }

  ghost predicate Forward(cfg: Config, before: Db, after: Db) {
    && (forall r :: RowForward(cfg, before, after, r))
    && before.hygieneClaims <= after.hygieneClaims && before.categoryClaims <= after.categoryClaims
  }

  lemma KeysKeptReflexive(j: Json)
    ensures OtherKeysKept(j, j)
  {
  }

  lemma FinalizedIsForward(cfg: Config, db: Db, db': Db, u: Uuid, r: Uuid, scope: seq<Uuid>, finished: bool, now: int)
    requires Live(db, u, r) && Finalized(cfg, db, db', u, r, scope, finished, now)
    requires DispatchFrame(db.(runs := db'.runs, users := db'.users), db')
    requires AccountIdsFromStats(cfg, db.runs[r].stats) != [] ==> scope == AccountIdsFromStats(cfg, db.runs[r].stats)
    ensures Forward(cfg, db, db')
  {
    hide AccountIdsFromStats, ProgressSnapshot, Counted, HasFatal, CostCents, ClearUserLock, OtherKeysKept;
    forall x ensures RowForward(cfg, db, db', x) {
      if x in db.runs && x != r { KeysKeptReflexive(db.runs[x].stats); }
    }
  }

  lemma CallForward(cfg: Config, db: Db, u: Uuid, r: Uuid, ports: Ports, ans: Answers, now: int)
    requires cfg.Lawful()
    ensures var o := FinalizeCall(cfg, db, u, Some(r), ports, ans, now);
            !o.raised ==> Forward(cfg, db, o.db)
  {
    hide FinalizeCall, AccountIdsFromStats, Finalized, DispatchFrame, Forward;
    FinalizeIgnores(cfg, db, u, Some(r), ports, ans, now);
    ForwardReflexive(cfg, db);
    var o := FinalizeCall(cfg, db, u, Some(r), ports, ans, now);
    if Live(db, u, r) && !o.raised {
      FinalizeEffect(cfg, db, u, r, ports, ans, now);
      FinalizedIsForward(cfg, db, o.db, u, r, CallScope(cfg, db, r, ans), o.finished, now);
    }
  }

  lemma CloseForward(cfg: Config, db: Db, e: Event)
    requires cfg.Lawful() && e.Finalize? && !Close(cfg, db, e).raised
    ensures Forward(cfg, db, Close(cfg, db, e).db)
  {
    hide FinalizeCall, Forward, Base;
    CloseIsCall(cfg, db, e);
    BaseDiffers(db, e);
    RowsForward(cfg, db, Base(db, e));
    CallForward(cfg, Base(db, e), e.userId, e.runId, e.ports, e.ans, e.now);
    ForwardTransitive(cfg, db, Base(db, e), Close(cfg, db, e).db);
  }

  // Forward when at most the row of one run differs, and differs forward.
  lemma OneRowForward(cfg: Config, a: Db, b: Db, r: Uuid)
    requires r in b.runs && (b.runs == a.runs || b.runs == a.runs[r := b.runs[r]]) && RowForward(cfg, a, b, r)
    requires a.hygieneClaims <= b.hygieneClaims && a.categoryClaims <= b.categoryClaims
    ensures Forward(cfg, a, b)
  {
    hide AccountIdsFromStats, OtherKeysKept;
    forall x ensures RowForward(cfg, a, b, x) {
      if x in a.runs && x != r { KeysKeptReflexive(a.runs[x].stats); }
    }
  }

  lemma SmallStepForward(cfg: Config, s: State, e: Event)
    requires Enabled(cfg, s, e) && !e.Finalize?
    ensures Forward(cfg, s.db, Next(cfg, s, e).db)
  {
    hide FinalizeCall, AccountIdsFromStats, Forward, OtherKeysKept;
    var db' := Next(cfg, s, e).db;
    match e {
      case CreateRun(r, _) => OneRowForward(cfg, s.db, db', r);
      case MarkRunning(r) =>
        KeysKeptReflexive(s.db.runs[r].stats);
        OneRowForward(cfg, s.db, db', r);
      case _ => SameRunsForward(cfg, s, e);
    }
  }

  lemma SameRunsForward(cfg: Config, s: State, e: Event)
    requires e.RowWork? || e.Ingest? || e.Stamp?
    ensures Forward(cfg, s.db, Next(cfg, s, e).db)
  {
    hide FinalizeCall, AccountIdsFromStats, Edges, Forward, ApplyWork;
    RowsForward(cfg, s.db, Next(cfg, s, e).db);
  }

  lemma RowsForward(cfg: Config, a: Db, b: Db)
    requires a.runs == b.runs && a.hygieneClaims <= b.hygieneClaims && a.categoryClaims <= b.categoryClaims
    ensures Forward(cfg, a, b)
  {
    hide AccountIdsFromStats, OtherKeysKept;
    forall x ensures RowForward(cfg, a, b, x) {
      if x in a.runs { KeysKeptReflexive(a.runs[x].stats); }
    }
  }

  lemma StepForward(cfg: Config, s: State, e: Event)
    requires cfg.Lawful() && Enabled(cfg, s, e)
    ensures Forward(cfg, s.db, Next(cfg, s, e).db)
  {
    hide Close, Forward, ApplyWork;
    if !e.Finalize? {
      SmallStepForward(cfg, s, e);
    } else if Close(cfg, s.db, e).raised {
      ForwardReflexive(cfg, s.db);
    } else {
      CloseForward(cfg, s.db, e);
    }
  }

  /** Over every run: statuses only move queued, running, terminal; a terminal row
      never changes again; claims are never lost; a recorded scope stays the scope,
      and stats keys that are not the payload's own are never touched. */
  lemma {:induction false} RunsOnlyMoveForward(cfg: Config, states: seq<State>, events: seq<Event>, i: nat, j: nat)
    requires cfg.Lawful() && IsRun(cfg, states, events) && i <= j < |states|
    ensures Forward(cfg, states[i].db, states[j].db)
    decreases j
  {
    hide Next, Forward, Enabled;
    if i == j {
      ForwardReflexive(cfg, states[i].db);
    } else {
      RunsOnlyMoveForward(cfg, states, events, i, j - 1);
      StepForward(cfg, states[j - 1], events[j - 1]);
      assert Enabled(cfg, states[j - 1], events[j - 1]);
      ForwardTransitive(cfg, states[i].db, states[j - 1].db, states[j].db);
    }
  }

  lemma ForwardReflexive(cfg: Config, a: Db)
    ensures Forward(cfg, a, a)
  {
    RowsForward(cfg, a, a);
  }

  lemma ForwardTransitive(cfg: Config, a: Db, b: Db, c: Db)
    requires Forward(cfg, a, b) && Forward(cfg, b, c)
    ensures Forward(cfg, a, c)
  {
    hide AccountIdsFromStats, OtherKeysKept;
    forall r ensures RowForward(cfg, a, c, r) {
      assert RowForward(cfg, a, b, r) && RowForward(cfg, b, c, r);
      if r in a.runs { OtherKeysTransitive(a.runs[r].stats, b.runs[r].stats, c.runs[r].stats); }
    }
  }

  /** Once a committed call has worked with a non-empty account scope, every later
      call on that run works with the same one, whatever the accounts table says. */
  lemma ScopeIsFrozen(cfg: Config, states: seq<State>, events: seq<Event>, i: nat, j: nat)
    requires cfg.Lawful() && IsRun(cfg, states, events) && i < j < |events|
    requires events[i].Finalize? && Commits(cfg, states[i], events[i])
        && Live(states[i].db, events[i].userId, events[i].runId)
    requires events[j].Finalize? && events[j].runId == events[i].runId
    requires CallScope(cfg, states[i].db, events[i].runId, events[i].ans) != []
    ensures events[j].runId in states[j].db.runs
    ensures CallScope(cfg, states[j].db, events[j].runId, events[j].ans)
        == CallScope(cfg, states[i].db, events[i].runId, events[i].ans)
  {
    hide Close, Base, AccountIdsFromStats, ProgressSnapshot, Counted, HasFatal, CostCents, OtherKeysKept;
    var e := events[i];
    CloseIsCall(cfg, states[i].db, e);
    BaseDiffers(states[i].db, e);
    FinalizeEffect(cfg, Base(states[i].db, e), e.userId, e.runId, e.ports, e.ans, e.now);
    RunsOnlyMoveForward(cfg, states, events, i + 1, j);
    assert RowForward(cfg, states[i + 1].db, states[j].db, e.runId);
  }

  // ---------------------------------------------------------- why a message exists

  // The tables a finalize call starts from justify a message it sends.
  ghost predicate CallJustifies(cfg: Config, db: Db, e: Event, m: Message)
    requires e.Finalize?
  {
    match m
    case CategoryMessage(r, c) =>
      e.runId == r && GoingOn(db, e.userId, r) && DigestDue(db, r, CallScope(cfg, db, r, e.ans), c)
    case ClusterMessage(u, r, ids) =>
      && e.runId == r && e.userId == u && GoingOn(db, u, r)
      && (var scope := CallScope(cfg, db, r, e.ans);
          ClusterDue(cfg, db, u, r, scope) && |ids| >= 2 && ListsNewest(db, r, scope, ids))
    case _ => false
  }

  // The tables that justify a message at the moment it leaves.
  ghost predicate Justified(cfg: Config, db: Db, e: Event, m: Message) {
    && e.Finalize?
    && (CallJustifies(cfg, Base(db, e), e, m) || (Hygienic(db, e) && m == HygieneJob(e)))
  }

  lemma CategoryJustified(cfg: Config, db: Db, e: Event, m: Message)
    requires e.Finalize? && Live(db, e.userId, e.runId) && m.CategoryMessage?
    requires var scope := CallScope(cfg, db, e.runId, e.ans);
             SentFor(db, e.userId, e.runId, scope, ProgressSnapshot(cfg, db, e.userId, e.runId, scope), e.ans.newest,
                     e.ports, m)
    ensures CallJustifies(cfg, db, e, m)
  {
    hide ProgressSnapshot, MissingCategories, CallScope, DigestDue, ClusterDue;
    DueMeansWanted(cfg, db, e.userId, e.runId, CallScope(cfg, db, e.runId, e.ans));
  }

  lemma ClusterJustified(cfg: Config, db: Db, e: Event, m: Message)
    requires e.Finalize? && Live(db, e.userId, e.runId) && m.ClusterMessage?
    requires AnswersFit(cfg, db, e.userId, e.runId, e.ports, e.ans)
    requires var scope := CallScope(cfg, db, e.runId, e.ans);
             SentFor(db, e.userId, e.runId, scope, ProgressSnapshot(cfg, db, e.userId, e.runId, scope), e.ans.newest,
                     e.ports, m)
    ensures CallJustifies(cfg, db, e, m)
  {
    hide ProgressSnapshot, MissingCategories, NewestFirst, RunNewsletters, DigestDue, ClusterDue, ListsNewest;
    var scope := CallScope(cfg, db, e.runId, e.ans);
    DueMeansWanted(cfg, db, e.userId, e.runId, scope);
    NewestMeans(db, e.runId, scope, e.ans.newest);
  }

  lemma CallMessagesJustified(cfg: Config, db: Db, e: Event, m: Message)
    requires cfg.Lawful() && e.Finalize?
    requires Live(db, e.userId, e.runId) ==> AnswersFit(cfg, db, e.userId, e.runId, e.ports, e.ans)
    requires m in FinalizeCall(cfg, db, e.userId, Some(e.runId), e.ports, e.ans, e.now).sent
    ensures CallJustifies(cfg, db, e, m)
  {
    if !Live(db, e.userId, e.runId) { return; }
    hide FinalizeCall, AnswersFit, ProgressSnapshot, CallScope, CallJustifies;
    MessagesSentFor(cfg, db, e.userId, e.runId, e.ports, e.ans, e.now);
    if m.ClusterMessage? {
      ClusterJustified(cfg, db, e, m);
    } else {
      CategoryJustified(cfg, db, e, m);
    }
  }

  lemma StepJustifies(cfg: Config, s: State, e: Event, m: Message)
    requires cfg.Lawful() && Enabled(cfg, s, e) && m in Sent(cfg, s, e)
    ensures Justified(cfg, s.db, e, m)
  {
    hide FinalizeCall, CallJustifies, Base, ApplyWork, Edges;
    if e.Finalize? {
      assert Sent(cfg, s, e) == Close(cfg, s.db, e).sent;
      CloseIsCall(cfg, s.db, e);
      if m in Call(cfg, s.db, e).sent { CallMessagesJustified(cfg, Base(s.db, e), e, m); }
    }
  }

  /** In every reachable state, each message beyond the initial ones left at a step
      whose tables justified it. */
  lemma {:induction false} EveryMessageJustified(cfg: Config, states: seq<State>, events: seq<Event>, n: nat, k: nat)
      returns (i: nat)
    requires cfg.Lawful() && IsRun(cfg, states, events) && n < |states|
    requires |states[0].outbox| <= k < |states[n].outbox|
    ensures i < n && Justified(cfg, states[i].db, events[i], states[n].outbox[k])
    decreases n
  {
    hide Close, Justified, ApplyWork;
    assert Enabled(cfg, states[n - 1], events[n - 1]);
    if k < |states[n - 1].outbox| {
      i := EveryMessageJustified(cfg, states, events, n - 1, k);
    } else {
      i := n - 1;
      StepJustifies(cfg, states[n - 1], events[n - 1], states[n].outbox[k]);
    }
  }

  // ------------------------------------------------------------ once per claim

  /** Two committed steps never send for the same claim. */
  lemma OneDispatchPerClaim(cfg: Config, states: seq<State>, events: seq<Event>, i: nat, j: nat, m: Message,
      m': Message)
    requires cfg.Lawful() && IsRun(cfg, states, events) && i < j < |events|
    requires Commits(cfg, states[i], events[i]) && m in Sent(cfg, states[i], events[i])
    requires m' in Sent(cfg, states[j], events[j])
    ensures KeyOf(m) != KeyOf(m')
  {
    hide Sent, Commits, Next, Forward;
    assert Enabled(cfg, states[i], events[i]) && Enabled(cfg, states[j], events[j]);
    SentMeansClaimed(cfg, states[i], events[i], m);
    RunsOnlyMoveForward(cfg, states, events, i + 1, j);
    SentMeansFree(cfg, states[j], events[j], m');
    if KeyOf(m) == KeyOf(m') {
      ClaimsLast(cfg, states[i + 1].db, states[j].db, KeyOf(m).value);
    }
  }

  lemma ClaimsLast(cfg: Config, before: Db, after: Db, k: ClaimKey)
    requires Forward(cfg, before, after) && Claimed(before, k)
    ensures Claimed(after, k)
  {
    hide AccountIdsFromStats, OtherKeysKept;
    if k.ClusterClaim? { assert RowForward(cfg, before, after, k.clusterRun); }
  }

  lemma SentMeansClaimed(cfg: Config, s: State, e: Event, m: Message)
    requires cfg.Lawful() && Enabled(cfg, s, e) && Commits(cfg, s, e) && m in Sent(cfg, s, e)
    ensures KeyOf(m).Some? && Claimed(Next(cfg, s, e).db, KeyOf(m).value)
  {
    hide FinalizeCall, ApplyWork, Edges, Base, AnswersFit;
    if e.Finalize? {
      assert Sent(cfg, s, e) == Close(cfg, s.db, e).sent;
      var b, o := Base(s.db, e), Call(cfg, s.db, e);
      CloseIsCall(cfg, s.db, e);
      BaseDiffers(s.db, e);
      FinalizeIgnores(cfg, b, e.userId, Some(e.runId), e.ports, e.ans, e.now);
      CallForward(cfg, b, e.userId, e.runId, e.ports, e.ans, e.now);
      if m in o.sent {
        SentIsClaimed(cfg, b, e.userId, e.runId, e.ports, e.ans, e.now, m);
      } else {
        ClaimsLast(cfg, b, o.db, HygieneClaim(e.runId, e.hygiene.value));
      }
    }
  }

  lemma SentMeansFree(cfg: Config, s: State, e: Event, m: Message)
    requires cfg.Lawful() && Enabled(cfg, s, e) && m in Sent(cfg, s, e)
    ensures KeyOf(m).Some? && !Claimed(s.db, KeyOf(m).value)
  {
    hide Close, ListsNewest, MailDone, DigestOwed, AllClassified, ClusterOwed, Next, Sent, Base,
        CallScope;
    StepJustifies(cfg, s, e, m);
    BaseDiffers(s.db, e);
  }
}

/**
 The digest-run helpers every worker stage calls inside its own transaction.

 `Session` is the imperative form: its `db` field holds what the transaction
 sees, its `outbox` what has already left for the queues. Each method is proved
 against a function of the tables; the laws of those functions follow in
 RunFinalizeLaws and RunLifecycle.
 */
module RunService {
  import opened PromptLog
  import opened Wrappers
  import opened RunTables

  const FAILED_RUN_ERROR := "One or more LLM provider calls failed during the scan."

  // What an inline digest build leaves behind: perhaps the digest row, and one
  // log row per provider call.
  datatype Built = Built(written: bool, calls: seq<(CallStatus, nat)>)

  // The dispatchers passed to one finalize call. `sendFails` says which sends
  // raise; an inline builder that raises answers None.
  datatype Ports = Ports(
    categorySender: bool,
    categoryBuilder: Option<(Db, Uuid, Label) -> Option<Built>>,
    clusterSender: bool,
    sendFails: Message -> bool)

  // The rows the database answered where SQL leaves their order open.
  datatype Answers = Answers(accountRows: seq<Uuid>, newest: seq<Uuid>)

  datatype Dispatch = Dispatch(db: Db, sent: seq<Message>, built: bool, raised: bool)

  datatype Outcome = Outcome(db: Db, sent: seq<Message>, finished: bool, raised: bool)

  // ------------------------------------------------------------ stats payload

  function ParseIds(cfg: Config, items: seq<Json>): seq<Uuid> {
    if items == [] then []
    else
      (if items[0].JStr? && cfg.parseUuid(items[0].s).Some? then [cfg.parseUuid(items[0].s).value] else [])
      + ParseIds(cfg, items[1..])
  }

  function AccountIdsFromStats(cfg: Config, stats: Json): seq<Uuid> {
    if stats.JObject? && "account_ids" in stats.fields && stats.fields["account_ids"].JList?
    then ParseIds(cfg, stats.fields["account_ids"].items)
    else []
  }

  function PrintIds(cfg: Config, ids: seq<Uuid>): seq<Json> {
    seq(|ids|, i requires 0 <= i < |ids| => JStr(cfg.printUuid(ids[i])))
  }

  function StatsPayload(cfg: Config, stats: Json, scope: seq<Uuid>, s: Snapshot): Json {
    var existing := if stats.JObject? then stats.fields else map[];
    JObject(existing + map[
      "ingested" := JInt(s.ingested),
      "classified" := JInt(s.classified),
      "summarized" := JInt(s.summarized),
      "new_must_read" := JInt(s.newMustRead),
      "account_ids" := JList(PrintIds(cfg, scope))])
  }

  // ------------------------------------------------------------ account scope

  function ActiveAccounts(db: Db, userId: Uuid): set<Uuid> {
    set a | a in db.accounts && db.accounts[a] == Account(userId, true, true)
  }

  ghost predicate Lists(rows: seq<Uuid>, s: set<Uuid>) {
    && (forall i, j | 0 <= i < j < |rows| :: rows[i] != rows[j])
    && (forall x :: x in rows <==> x in s)
  }

  function AccountScope(cfg: Config, db: Db, runId: Uuid, accountRows: seq<Uuid>): seq<Uuid>
    requires runId in db.runs
  {
    var ids := AccountIdsFromStats(cfg, db.runs[runId].stats);
    if ids != [] then ids else accountRows
  }

  // ------------------------------------------------------ newest newsletters

  ghost predicate NewestFirst(db: Db, pool: set<Uuid>, ids: seq<Uuid>, limit: nat)
    requires forall e | e in pool :: e in db.emails
  {
    && |ids| == (if |pool| < limit then |pool| else limit)
    && (forall i | 0 <= i < |ids| :: ids[i] in pool)
    && (forall i, j | 0 <= i < j < |ids| :: ids[i] != ids[j])
    && (forall i, j | 0 <= i < j < |ids| :: db.emails[ids[i]].internalDate >= db.emails[ids[j]].internalDate)
    && (forall i, e | 0 <= i < |ids| && e in pool && e !in ids ::
          db.emails[ids[i]].internalDate >= db.emails[e].internalDate)
  }

  function Edges(runId: Uuid, ids: seq<Uuid>): set<(Uuid, Uuid)> {
    set e | e in ids :: (runId, e)
  }

  // ------------------------------------------------------------------- claims

  datatype ClaimKey =
    | HygieneClaim(hygieneRun: Uuid, accountId: Uuid)
    | CategoryClaim(digestRun: Uuid, category: Label)
    | ClusterClaim(clusterRun: Uuid)

  predicate Claimed(db: Db, k: ClaimKey) {
    match k
    case HygieneClaim(r, a) => (r, a) in db.hygieneClaims
    case CategoryClaim(r, c) => (r, c) in db.categoryClaims
    case ClusterClaim(r) => r in db.runs && db.runs[r].clusterEnqueuedAt.Some?
  }

  // A claim on a run that no longer exists inserts or updates nothing.
  predicate CanClaim(db: Db, k: ClaimKey) {
    !Claimed(db, k) &&
    match k
    case HygieneClaim(r, _) => r in db.runs
    case CategoryClaim(r, _) => r in db.runs
    case ClusterClaim(r) => r in db.runs
  }

  function TakeClaim(db: Db, k: ClaimKey, now: int): Db
    requires CanClaim(db, k)
  {
    match k
    case HygieneClaim(r, a) => db.(hygieneClaims := db.hygieneClaims + {(r, a)})
    case CategoryClaim(r, c) => db.(categoryClaims := db.categoryClaims + {(r, c)})
    case ClusterClaim(r) => db.(runs := db.runs[r := db.runs[r].(clusterEnqueuedAt := Some(now))])
  }

  function KeyOf(m: Message): Option<ClaimKey> {
    match m
    case ClusterMessage(_, r, _) => Some(ClusterClaim(r))
    case CategoryMessage(r, c) => Some(CategoryClaim(r, c))
    case HygieneMessage(_, a, r) => if r.Some? then Some(HygieneClaim(r.value, a)) else None
    case ClassifyMessage(_) => None
    case SummarizeMessage(_) => None
  }

  // ----------------------------------------------------------------- dispatch

  function DispatchCluster(db: Db, userId: Uuid, runId: Uuid, newest: seq<Uuid>, ports: Ports, now: int): (d: Dispatch)
    ensures d.db.runs.Keys == db.runs.Keys && d.db.users == db.users
  {
    if !ports.clusterSender || |newest| < MIN_CLUSTER_NEWSLETTERS || !CanClaim(db, ClusterClaim(runId)) then
      Dispatch(db, [], false, false)
    else
      var claimed := TakeClaim(db, ClusterClaim(runId), now);
      var m := ClusterMessage(userId, runId, newest);
      if ports.sendFails(m) then Dispatch(claimed, [], false, true) else Dispatch(claimed, [m], false, false)
  }

  function ApplyBuilt(db: Db, runId: Uuid, category: Label, b: Built): Db {
    var rows := seq(|b.calls|, i requires 0 <= i < |b.calls| =>
      PromptLogRow(Some(runId), None, b.calls[i].0, Some("category_digest"), b.calls[i].1));
    db.(categoryDigests := db.categoryDigests + (if b.written then {(runId, category)} else {}),
        promptLog := db.promptLog + rows)
  }

  // One category: claim it, then send its message or build its digest inline.
  function DispatchCategory(db: Db, runId: Uuid, category: Label, ports: Ports, now: int): Dispatch {
    if !ports.categorySender && ports.categoryBuilder.None? then Dispatch(db, [], false, false)
    else if !CanClaim(db, CategoryClaim(runId, category)) then Dispatch(db, [], false, false)
    else
      var claimed := TakeClaim(db, CategoryClaim(runId, category), now);
      var m := CategoryMessage(runId, category);
      if !ports.categorySender then
        match ports.categoryBuilder.value(claimed, runId, category)
        case None => Dispatch(claimed, [], false, true)
        case Some(built) => Dispatch(ApplyBuilt(claimed, runId, category, built), [], true, false)
      else if ports.sendFails(m) then Dispatch(claimed, [], false, true)
      else Dispatch(claimed, [m], false, false)
  }

  // Categories in order, stopping at the first that raises.
  function DispatchCategories(db: Db, runId: Uuid, missing: seq<Label>, ports: Ports, now: int): (d: Dispatch)
    ensures d.db.runs == db.runs && d.db.users == db.users
    decreases |missing|
  {
    if missing == [] then Dispatch(db, [], false, false)
    else
      var head := DispatchCategory(db, runId, missing[0], ports, now);
      if head.raised then head
      else
        var rest := DispatchCategories(head.db, runId, missing[1..], ports, now);
        Dispatch(rest.db, head.sent + rest.sent, head.built || rest.built, rest.raised)
  }

  // ----------------------------------------------------------------- finalize

  predicate Terminal(s: RunStatus) { s == Complete || s == Failed }

  // The rows a finalize call goes on with; on any other it returns at once.
  predicate Live(db: Db, userId: Uuid, runId: Uuid) {
    runId in db.runs && db.runs[runId].userId == userId && !Terminal(db.runs[runId].status)
  }

  function RecordProgress(cfg: Config, db: Db, runId: Uuid, scope: seq<Uuid>, s: Snapshot): (r: Db)
    requires runId in db.runs
    ensures r.runs.Keys == db.runs.Keys
  {
    var run := db.runs[runId];
    db.(runs := db.runs[runId := run.(stats := StatsPayload(cfg, run.stats, scope, s), costCents := Some(s.costCents))])
  }

  function ClearUserLock(db: Db, userId: Uuid, runId: Uuid, completed: bool, now: int): Db {
    if userId !in db.users || db.users[userId].currentRunId != Some(runId) then db
    else
      var last := if completed then Some(now) else db.users[userId].lastRunFinishedAt;
      db.(users := db.users[userId := User(None, None, last)])
  }

  function FinishRun(db: Db, userId: Uuid, runId: Uuid, failed: bool, now: int): Db
    requires runId in db.runs
  {
    var run := db.runs[runId].(
      status := if failed then Failed else Complete,
      completedAt := Some(now),
      error := if failed then Some(FAILED_RUN_ERROR) else None);
    ClearUserLock(db.(runs := db.runs[runId := run]), userId, runId, !failed, now)
  }

  function StartRunning(db: Db, runId: Uuid): (r: Db)
    requires runId in db.runs
    ensures r.runs.Keys == db.runs.Keys
  {
    if db.runs[runId].status == Queued then db.(runs := db.runs[runId := db.runs[runId].(status := Running)]) else db
  }

  // Everything a call writes before it dispatches.
  function Prepare(cfg: Config, db: Db, runId: Uuid, scope: seq<Uuid>, s: Snapshot): (r: Db)
    requires runId in db.runs
    ensures r == db.(runs := r.runs) && r.runs.Keys == db.runs.Keys
  {
    StartRunning(RecordProgress(cfg, db, runId, scope, s), runId)
  }

  // Everything it writes after dispatching.
  function Conclude(cfg: Config, db: Db, userId: Uuid, runId: Uuid, scope: seq<Uuid>, s: Snapshot, now: int): Db
    requires runId in db.runs
  {
    var recorded := RecordProgress(cfg, db, runId, scope, s);
    if s.PendingTotal() == 0 then FinishRun(recorded, userId, runId, s.promptErrors > 0, now) else recorded
  }

  predicate WantsCluster(s: Snapshot) { s.pendingUnclassified == 0 && s.pendingClusters > 0 }

  predicate WantsDigests(s: Snapshot) { s.pendingUnclassified == 0 && s.pendingSummaries == 0 }

  // The dispatch part of one call: the cluster first, the categories after it.
  function DispatchAll(db: Db, userId: Uuid, runId: Uuid, scope: seq<Uuid>, s: Snapshot, newest: seq<Uuid>,
      ports: Ports, now: int): (d: Dispatch)
    ensures d.db.runs.Keys == db.runs.Keys && d.db.users == db.users
  {
    var d1 := if WantsCluster(s) then DispatchCluster(db, userId, runId, newest, ports, now)
      else Dispatch(db, [], false, false);
    if d1.raised || !WantsDigests(s) then d1
    else
      var d2 := DispatchCategories(d1.db, runId, MissingCategories(d1.db, runId, scope), ports, now);
      Dispatch(d2.db, d1.sent + d2.sent, d2.built, d2.raised)
  }

  function FinalizeLive(cfg: Config, db: Db, userId: Uuid, runId: Uuid, ports: Ports, ans: Answers, now: int): Outcome
    requires Live(db, userId, runId)
  {
    var scope := AccountScope(cfg, db, runId, ans.accountRows);
    var s := ProgressSnapshot(cfg, db, userId, runId, scope);
    var d := DispatchAll(Prepare(cfg, db, runId, scope, s), userId, runId, scope, s, ans.newest, ports, now);
    if d.raised then Outcome(d.db, d.sent, false, true)
    else
      var last := if d.built then ProgressSnapshot(cfg, d.db, userId, runId, scope) else s;
      Outcome(Conclude(cfg, d.db, userId, runId, scope, last, now), d.sent, last.PendingTotal() == 0, false)
  }

  function FinalizeCall(cfg: Config, db: Db, userId: Uuid, runId: Option<Uuid>, ports: Ports, ans: Answers,
      now: int): Outcome {
    if runId.Some? && Live(db, userId, runId.value)
    then FinalizeLive(cfg, db, userId, runId.value, ports, ans, now)
    else Outcome(db, [], false, false)
  }

  // The answers are those the database could give to this call's two queries.
  ghost predicate AnswersFit(cfg: Config, db: Db, userId: Uuid, runId: Uuid, ports: Ports, ans: Answers)
    requires runId in db.runs
  {
    var scope := AccountScope(cfg, db, runId, ans.accountRows);
    && (AccountIdsFromStats(cfg, db.runs[runId].stats) == [] ==> Lists(ans.accountRows, ActiveAccounts(db, userId)))
    && (ports.clusterSender && WantsCluster(ProgressSnapshot(cfg, db, userId, runId, scope)) ==>
          NewestFirst(db, RunNewsletters(db, runId, scope), ans.newest, MAX_CLUSTER_NEWSLETTERS))
  }

  // ---------------------------------------------------------------- the class

  class Session {
    var db: Db
    var outbox: seq<Message>

    constructor (db: Db)
      ensures this.db == db && outbox == []
    {
      this.db := db;
      outbox := [];
    }

    // None is the integrity error a missing run or email raises on flush.
    method StampRunMembership(runId: Option<Uuid>, emailIds: seq<Uuid>) returns (added: Option<nat>)
      modifies this`db
      ensures runId.None? || emailIds == [] ==> added == Some(0) && db == old(db)
      ensures added.None? ==> db == old(db)
      ensures added.None? <==>
              && runId.Some?
              && exists e | e in emailIds ::
                   (runId.value, e) !in old(db).members && (runId.value !in old(db).runs || e !in old(db).emails)
      ensures added.Some? && runId.Some? ==>
              && db == old(db).(members := old(db).members + Edges(runId.value, emailIds))
              && added.value == |db.members| - |old(db).members|
    {
      if runId.None? { return Some(0); }
      var unseen: seq<Uuid> := [];
      var broken := false;
      ghost var before := db.members;
      for i := 0 to |emailIds|
        invariant forall x :: x in unseen <==> x in emailIds[..i] && (runId.value, x) !in before
        invariant broken <==> exists x | x in unseen :: runId.value !in db.runs || x !in db.emails
        invariant forall j, k | 0 <= j < k < |unseen| :: unseen[j] != unseen[k]
      {
        if (runId.value, emailIds[i]) !in db.members && emailIds[i] !in unseen {
          broken := broken || runId.value !in db.runs || emailIds[i] !in db.emails;
          unseen := unseen + [emailIds[i]];
        }
      }
      if broken { return None; }
      var rows := Edges(runId.value, unseen);
      EdgeCount(runId.value, unseen, before);
      assert before + rows == before + Edges(runId.value, emailIds);
      db := db.(members := db.members + rows);
      return Some(|unseen|);
    }

    method MarkRunRunning(runId: Option<Uuid>)
      modifies this`db
      ensures db == if runId.Some? && runId.value in old(db).runs then StartRunning(old(db), runId.value) else old(db)
    {
      if runId.None? || runId.value !in db.runs { return; }
      if db.runs[runId.value].status != Queued { return; }
      db := db.(runs := db.runs[runId.value := db.runs[runId.value].(status := Running)]);
    }

    // INSERT ... ON CONFLICT DO NOTHING, or the conditional UPDATE, with RETURNING.
    method Claim(k: ClaimKey, now: int) returns (won: bool)
      modifies this`db
      ensures won <==> CanClaim(old(db), k)
      ensures db == if won then TakeClaim(old(db), k, now) else old(db)
      ensures won && k.ClusterClaim? ==>
                var run := old(db).runs[k.clusterRun];
                db == old(db).(runs := old(db).runs[k.clusterRun := run.(clusterEnqueuedAt := Some(now))])
    {
      match k {
        case HygieneClaim(r, a) =>
          won := r in db.runs && (r, a) !in db.hygieneClaims;
          if won { db := db.(hygieneClaims := db.hygieneClaims + {(r, a)}); }
        case CategoryClaim(r, c) =>
          won := r in db.runs && (r, c) !in db.categoryClaims;
          if won { db := db.(categoryClaims := db.categoryClaims + {(r, c)}); }
        case ClusterClaim(r) =>
          won := r in db.runs && db.runs[r].clusterEnqueuedAt.None?;
          if won { db := db.(runs := db.runs[r := db.runs[r].(clusterEnqueuedAt := Some(now))]); }
      }
    }

    // A legacy message without a run always enqueues and claims nothing.
    method MarkUnsubscribeHygieneEnqueued(runId: Option<Uuid>, accountId: Uuid, now: int) returns (won: bool)
      modifies this`db
      ensures runId.None? ==> won && db == old(db)
      ensures runId.Some? ==> (won <==> CanClaim(old(db), HygieneClaim(runId.value, accountId)))
      ensures runId.Some? ==> db == if won then TakeClaim(old(db), HygieneClaim(runId.value, accountId), now)
          else old(db)
    {
      if runId.None? { return true; }
      won := Claim(HygieneClaim(runId.value, accountId), now);
    }

    method Send(m: Message, ports: Ports) returns (raised: bool)
      modifies this`outbox
      ensures raised == ports.sendFails(m)
      ensures outbox == if raised then old(outbox) else old(outbox) + [m]
    {
      raised := ports.sendFails(m);
      if !raised { outbox := outbox + [m]; }
    }

    method ListAccounts(userId: Uuid) returns (rows: seq<Uuid>)
      ensures Lists(rows, ActiveAccounts(db, userId))
    {
      rows := [];
      var rest := ActiveAccounts(db, userId);
      while rest != {}
        invariant rest <= ActiveAccounts(db, userId)
        invariant Lists(rows, ActiveAccounts(db, userId) - rest)
        decreases rest
      {
        var a :| a in rest;
        rows, rest := rows + [a], rest - {a};
      }
    }

    method PickNewest(pool: set<Uuid>) returns (best: Uuid)
      requires pool != {} && forall e | e in pool :: e in db.emails
      ensures best in pool
      ensures forall e | e in pool :: db.emails[best].internalDate >= db.emails[e].internalDate
    {
      best :| best in pool;
      var rest := pool - {best};
      while rest != {}
        invariant best in pool && rest <= pool
        invariant forall e | e in pool && e !in rest :: db.emails[best].internalDate >= db.emails[e].internalDate
        decreases rest
      {
        var e :| e in rest;
        if db.emails[e].internalDate > db.emails[best].internalDate { best := e; }
        rest := rest - {e};
      }
    }

    // ORDER BY internal_date DESC LIMIT n over the run's newsletters.
    method NewestNewsletters(runId: Uuid, scope: seq<Uuid>, limit: nat) returns (ids: seq<Uuid>)
      ensures NewestFirst(db, RunNewsletters(db, runId, scope), ids, limit)
    {
      var pool := RunNewsletters(db, runId, scope);
      var rest := pool;
      ids := [];
      while rest != {} && |ids| < limit
        invariant rest <= pool && |ids| + |rest| == |pool| && |ids| <= limit
        invariant forall e :: e in ids <==> e in pool && e !in rest
        invariant forall i | 0 <= i < |ids| :: ids[i] in pool && ids[i] in db.emails
        invariant forall i, j | 0 <= i < j < |ids| :: ids[i] != ids[j]
        invariant forall i, j | 0 <= i < j < |ids| :: db.emails[ids[i]].internalDate >= db.emails[ids[j]].internalDate
        invariant forall i, e | 0 <= i < |ids| && e in rest ::
            db.emails[ids[i]].internalDate >= db.emails[e].internalDate
        decreases rest
      {
        var e := PickNewest(rest);
        ids, rest := ids + [e], rest - {e};
      }
    }

    method DispatchTechNewsCluster(userId: Uuid, runId: Uuid, scope: seq<Uuid>, ports: Ports, now: int)
      returns (raised: bool, ghost newest: seq<Uuid>)
      modifies this
      ensures ports.clusterSender ==>
                NewestFirst(old(db), RunNewsletters(old(db), runId, scope), newest, MAX_CLUSTER_NEWSLETTERS)
      ensures var d := DispatchCluster(old(db), userId, runId, newest, ports, now);
              db == d.db && outbox == old(outbox) + d.sent && raised == d.raised
    {
      raised, newest := false, [];
      if !ports.clusterSender { return; }
      var ids := NewestNewsletters(runId, scope, MAX_CLUSTER_NEWSLETTERS);
      newest := ids;
      if |ids| < MIN_CLUSTER_NEWSLETTERS { return; }
      var won := Claim(ClusterClaim(runId), now);
      if !won { return; }
      raised := Send(ClusterMessage(userId, runId, ids), ports);
    }

    method DispatchOneCategory(runId: Uuid, category: Label, ports: Ports, now: int)
      returns (built: bool, raised: bool)
      modifies this
      ensures var d := DispatchCategory(old(db), runId, category, ports, now);
              db == d.db && outbox == old(outbox) + d.sent && raised == d.raised && built == d.built
    {
      built, raised := false, false;
      if !ports.categorySender && ports.categoryBuilder.None? { return; }
      var won := Claim(CategoryClaim(runId, category), now);
      if !won { return; }
      if ports.categorySender {
        raised := Send(CategoryMessage(runId, category), ports);
      } else {
        var b := ports.categoryBuilder.value(db, runId, category);
        if b.None? { return false, true; }
        db := ApplyBuilt(db, runId, category, b.value);
        built := true;
      }
    }

    method DispatchMissingCategorySummaries(runId: Uuid, missing: seq<Label>, ports: Ports, now: int)
      returns (built: bool, raised: bool)
      modifies this
      ensures var d := DispatchCategories(old(db), runId, missing, ports, now);
              db == d.db && outbox == old(outbox) + d.sent && raised == d.raised && (!raised ==> built == d.built)
    {
      built, raised := false, false;
      var i := 0;
      ghost var whole := DispatchCategories(db, runId, missing, ports, now);
      ghost var rest := whole;
      ghost var before := outbox;
      assert missing[0..] == missing;
      while i < |missing|
        invariant 0 <= i <= |missing| && !raised
        invariant rest == DispatchCategories(db, runId, missing[i..], ports, now)
        invariant before + whole.sent == outbox + rest.sent && whole.db == rest.db && whole.raised == rest.raised
        invariant !whole.raised ==> whole.built == (built || rest.built)
      {
        ghost var sent := outbox;
        ghost var head := DispatchCategory(db, runId, missing[i], ports, now);
        assert missing[i..][0] == missing[i] && missing[i..][1..] == missing[i + 1..];
        var b;
        b, raised := DispatchOneCategory(runId, missing[i], ports, now);
        if raised { return; }
        built := built || b;
        rest := DispatchCategories(db, runId, missing[i + 1..], ports, now);
        assert sent + (head.sent + rest.sent) == outbox + rest.sent;
        i := i + 1;
      }
    }

    // The dispatch half of a finalize call, between the two progress writes.
    method DispatchWork(userId: Uuid, runId: Uuid, scope: seq<Uuid>, s: Snapshot, ports: Ports, now: int)
      returns (built: bool, raised: bool, ghost newest: seq<Uuid>)
      modifies this
      ensures ports.clusterSender && WantsCluster(s) ==>
                NewestFirst(old(db), RunNewsletters(old(db), runId, scope), newest, MAX_CLUSTER_NEWSLETTERS)
      ensures var d := DispatchAll(old(db), userId, runId, scope, s, newest, ports, now);
              db == d.db && outbox == old(outbox) + d.sent && raised == d.raised && (!raised ==> built == d.built)
    {
      hide NewestFirst, RunNewsletters, MissingCategories, DispatchCategories;
      built, raised, newest := false, false, [];
      if s.pendingUnclassified == 0 && s.pendingClusters > 0 {
        raised, newest := DispatchTechNewsCluster(userId, runId, scope, ports, now);
        if raised { return; }
      }
      if s.pendingUnclassified == 0 && s.pendingSummaries == 0 {
        var missing := MissingCategories(db, runId, scope);
        built, raised := DispatchMissingCategorySummaries(runId, missing, ports, now);
      }
    }

    method ClearLock(userId: Uuid, runId: Uuid, completed: bool, now: int)
      modifies this`db
      ensures db == ClearUserLock(old(db), userId, runId, completed, now)
    {
      if userId !in db.users || db.users[userId].currentRunId != Some(runId) { return; }
      var user := db.users[userId].(currentRunId := None, currentRunStartedAt := None);
      if completed { user := user.(lastRunFinishedAt := Some(now)); }
      db := db.(users := db.users[userId := user]);
    }

    method Finish(userId: Uuid, runId: Uuid, failed: bool, now: int)
      requires runId in db.runs
      modifies this`db
      ensures db == FinishRun(old(db), userId, runId, failed, now)
    {
      var run := db.runs[runId];
      run := run.(status := if failed then Failed else Complete, completedAt := Some(now));
      run := run.(error := if failed then Some(FAILED_RUN_ERROR) else None);
      db := db.(runs := db.runs[runId := run]);
      ClearLock(userId, runId, !failed, now);
    }

    method Scope(cfg: Config, userId: Uuid, runId: Uuid) returns (scope: seq<Uuid>, ghost rows: seq<Uuid>)
      requires runId in db.runs
      ensures scope == AccountScope(cfg, db, runId, rows)
      ensures AccountIdsFromStats(cfg, db.runs[runId].stats) == [] ==> Lists(rows, ActiveAccounts(db, userId))
    {
      scope, rows := AccountIdsFromStats(cfg, db.runs[runId].stats), [];
      if scope != [] { return; }
      scope := ListAccounts(userId);
      rows := scope;
    }

    method WriteProgress(cfg: Config, runId: Uuid, scope: seq<Uuid>, s: Snapshot)
      requires runId in db.runs
      modifies this`db
      ensures db == RecordProgress(cfg, old(db), runId, scope, s)
    {
      var run := db.runs[runId];
      run := run.(stats := StatsPayload(cfg, run.stats, scope, s));
      run := run.(costCents := Some(s.costCents));
      db := db.(runs := db.runs[runId := run]);
    }

    method Begin(cfg: Config, runId: Uuid, scope: seq<Uuid>, s: Snapshot)
      requires runId in db.runs
      modifies this`db
      ensures db == Prepare(cfg, old(db), runId, scope, s)
    {
      WriteProgress(cfg, runId, scope, s);
      if db.runs[runId].status == Queued {
        db := db.(runs := db.runs[runId := db.runs[runId].(status := Running)]);
      }
    }

    method End(cfg: Config, userId: Uuid, runId: Uuid, scope: seq<Uuid>, s: Snapshot, now: int) returns (finished: bool)
      requires runId in db.runs
      modifies this`db
      ensures db == Conclude(cfg, old(db), userId, runId, scope, s, now)
      ensures finished <==> s.PendingTotal() == 0
    {
      WriteProgress(cfg, runId, scope, s);
      finished := s.PendingTotal() == 0;
      if finished { Finish(userId, runId, s.promptErrors > 0, now); }
    }

    // `raised` is a send that failed: the caller's transaction rolls `db` back,
    // while the messages already sent stay sent.
    method MaybeFinalizeRun(cfg: Config, userId: Uuid, runId: Option<Uuid>, ports: Ports, now: int)
      returns (finished: bool, raised: bool, ghost ans: Answers)
      modifies this
      ensures runId.Some? && Live(old(db), userId, runId.value)
          ==> AnswersFit(cfg, old(db), userId, runId.value, ports, ans)
      ensures var o := FinalizeCall(cfg, old(db), userId, runId, ports, ans, now);
              db == o.db && outbox == old(outbox) + o.sent && finished == o.finished && raised == o.raised
    {
      hide ProgressSnapshot, DispatchAll, Prepare, Conclude;
      finished, raised, ans := false, false, Answers([], []);
      if runId.None? { return; }
      var r := runId.value;
      if r !in db.runs || db.runs[r].userId != userId || Terminal(db.runs[r].status) { return; }

      var scope, rows := Scope(cfg, userId, r);
      var snapshot := ProgressSnapshot(cfg, db, userId, r, scope);
      ghost var start := db;
      Begin(cfg, r, scope, snapshot);
      RowsOnly(start, db, r, scope);

      var built;
      ghost var newest;
      built, raised, newest := DispatchWork(userId, r, scope, snapshot, ports, now);
      ans := Answers(rows, newest);
      if raised { return; }
      if built { snapshot := ProgressSnapshot(cfg, db, userId, r, scope); }
      finished := End(cfg, userId, r, scope, snapshot, now);
    }
  }

  // Rewriting run rows moves no newsletter.
  lemma RowsOnly(db: Db, db': Db, runId: Uuid, scope: seq<Uuid>)
    requires db' == db.(runs := db'.runs)
    ensures RunNewsletters(db', runId, scope) == RunNewsletters(db, runId, scope)
  {
    assert Members(db', runId, scope) == Members(db, runId, scope);
  }

  lemma {:induction false} EdgeCount(runId: Uuid, ids: seq<Uuid>, before: set<(Uuid, Uuid)>)
    requires forall j, k | 0 <= j < k < |ids| :: ids[j] != ids[k]
    requires forall e | e in ids :: (runId, e) !in before
    ensures |before + Edges(runId, ids)| == |before| + |ids|
  {
    var rows := Edges(runId, ids);
    if ids == [] {
      assert before + rows == before;
    } else {
      var front, last := ids[..|ids| - 1], ids[|ids| - 1];
      EdgeCount(runId, front, before);
      assert ids == front + [last];
      assert before + rows == before + Edges(runId, front) + {(runId, last)};
      assert (runId, last) !in before + Edges(runId, front);
    }
  }
}

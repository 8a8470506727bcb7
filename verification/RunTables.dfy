/**
 The committed tables that one digest run reads and writes, and the pending
 counters computed over them.

 A table is a map or a set keyed by its uniqueness constraint: one
 classification per email, one summary per email, one digest per (run, category),
 one claim per (run, account) or (run, category).
 */
module RunTables {
  import opened PromptLog
  import opened Wrappers

  type Uuid = nat

  // `ck_classifications_label` admits these three labels and no other, so the
  // legacy "newsletter" label never occurs and `isNewsletter` alone decides.
  datatype Label = MustRead | GoodToRead | Ignore

  const SUMMARIZABLE_LABELS: seq<Label> := [MustRead, GoodToRead]
  const NON_FATAL_PROMPT_NAMES: set<string> := {"unsubscribe_borderline", "category_digest"}
  const MIN_CLUSTER_NEWSLETTERS: nat := 2
  const MAX_CLUSTER_NEWSLETTERS: nat := 500

  datatype Email = Email(accountId: Uuid, internalDate: int, unread: bool)

  datatype Classification = Classification(bucket: Label, isNewsletter: bool)

  datatype Account = Account(userId: Uuid, active: bool, autoScan: bool)

  datatype Cluster = Cluster(userId: Uuid, runId: Option<Uuid>)

  // `promptName` is None when the outer join finds no prompt version.
  datatype PromptLogRow = PromptLogRow(
    runId: Option<Uuid>, emailId: Option<Uuid>, status: CallStatus,
    promptName: Option<string>, costMicros: nat)

  datatype RunStatus = Queued | Running | Complete | Failed

  datatype Json = JNull | JInt(n: int) | JStr(s: string) | JList(items: seq<Json>) | JObject(fields: map<string, Json>)

  datatype Run = Run(
    userId: Uuid, status: RunStatus, completedAt: Option<int>, stats: Json,
    costCents: Option<int>, error: Option<string>, clusterEnqueuedAt: Option<int>)

  datatype User = User(
    currentRunId: Option<Uuid>, currentRunStartedAt: Option<int>, lastRunFinishedAt: Option<int>)

  datatype Db = Db(
    users: map<Uuid, User>,
    accounts: map<Uuid, Account>,
    runs: map<Uuid, Run>,
    emails: map<Uuid, Email>,
    members: set<(Uuid, Uuid)>,                 // (run, email)
    classifications: map<Uuid, Classification>, // by email
    emailSummaries: set<Uuid>,                  // emails with a summary of kind "email"
    clusters: map<Uuid, Cluster>,
    clusterSummaries: set<Uuid>,                // clusters with a summary
    categoryDigests: set<(Uuid, Label)>,        // (run, category)
    promptLog: seq<PromptLogRow>,
    hygieneClaims: set<(Uuid, Uuid)>,           // (run, account)
    categoryClaims: set<(Uuid, Label)>)         // (run, category)

  // What the model is given instead of computing it: the clustering feature
  // switch and the UUID text format.
  datatype Config = Config(
    clusteringEnabled: bool,
    printUuid: Uuid -> string,
    parseUuid: string -> Option<Uuid>)
  {
    ghost predicate Lawful() {
      forall u: Uuid :: parseUuid(printUuid(u)) == Some(u)
    }
  }

  datatype Message =
    | ClusterMessage(userId: Uuid, runId: Uuid, emailIds: seq<Uuid>)
    | CategoryMessage(runId: Uuid, category: Label)
    | HygieneMessage(userId: Uuid, accountId: Uuid, hygieneRun: Option<Uuid>)
    | ClassifyMessage(emailId: Uuid)  // on the classify queue
    | SummarizeMessage(emailId: Uuid) // on the summarize queue

  // ---------------------------------------------------------------- prompt log

  predicate FatalPrompt(name: Option<string>) {
    name.None? || name.value !in NON_FATAL_PROMPT_NAMES
  }

  predicate FatalRow(row: PromptLogRow, runId: Uuid) {
    row.runId == Some(runId) && row.status == CallError && FatalPrompt(row.promptName)
  }

  predicate FatalFor(db: Db, runId: Uuid, emailId: Uuid) {
    exists i | 0 <= i < |db.promptLog| ::
      FatalRow(db.promptLog[i], runId) && db.promptLog[i].emailId == Some(emailId)
  }

  predicate ClusterFailureRow(row: PromptLogRow, runId: Uuid) {
    && row.runId == Some(runId) && row.emailId.None? && row.status == CallError
    && (row.promptName.None? || row.promptName.value == "newsletter_group")
  }

  predicate ClusterFailed(db: Db, runId: Uuid) {
    exists i | 0 <= i < |db.promptLog| :: ClusterFailureRow(db.promptLog[i], runId)
  }

  function PromptErrors(log: seq<PromptLogRow>, runId: Uuid): nat {
    if log == [] then 0
    else PromptErrors(log[..|log| - 1], runId) + (if FatalRow(log[|log| - 1], runId) then 1 else 0)
  }

  function CostMicros(log: seq<PromptLogRow>, runId: Uuid): nat {
    if log == [] then 0
    else
      CostMicros(log[..|log| - 1], runId)
      + (if log[|log| - 1].runId == Some(runId) then log[|log| - 1].costMicros else 0)
  }

  // Micro-dollars to cents, rounding half up.
  function CostCents(log: seq<PromptLogRow>, runId: Uuid): nat {
    (CostMicros(log, runId) + 5_000) / 10_000
  }

  // ------------------------------------------------------------------ row sets

  function Members(db: Db, runId: Uuid, scope: seq<Uuid>): set<Uuid> {
    set e | e in db.emails && (runId, e) in db.members && db.emails[e].accountId in scope
  }

  function ClassifiedMembers(db: Db, runId: Uuid, scope: seq<Uuid>): set<Uuid> {
    set e | e in Members(db, runId, scope) && e in db.classifications
  }

  function MustReadMembers(db: Db, runId: Uuid, scope: seq<Uuid>): set<Uuid> {
    set e | e in ClassifiedMembers(db, runId, scope) && db.classifications[e].bucket == MustRead
  }

  function SummarizedMembers(db: Db, runId: Uuid, scope: seq<Uuid>): set<Uuid> {
    set e | e in Members(db, runId, scope) && e in db.emailSummaries
  }

  function RunClusterSummaries(db: Db, userId: Uuid, runId: Uuid): set<Uuid> {
    set c | c in db.clusterSummaries && c in db.clusters && db.clusters[c] == Cluster(userId, Some(runId))
  }

  // Unread in-scope members without a classification.
  function Unclassified(db: Db, runId: Uuid, scope: seq<Uuid>): set<Uuid> {
    set e | e in Members(db, runId, scope) && db.emails[e].unread && e !in db.classifications
  }

  predicate WantsSummary(c: Classification) {
    c.bucket in SUMMARIZABLE_LABELS || c.isNewsletter
  }

  // Unread in-scope members that want a summary and have neither one nor a
  // fatal provider error recorded for this run.
  function AwaitingSummary(db: Db, runId: Uuid, scope: seq<Uuid>): set<Uuid> {
    set e | && e in Members(db, runId, scope) && db.emails[e].unread
            && e in db.classifications && WantsSummary(db.classifications[e])
            && e !in db.emailSummaries && !FatalFor(db, runId, e)
  }

  function RunNewsletters(db: Db, runId: Uuid, scope: seq<Uuid>): set<Uuid> {
    set e | && e in Members(db, runId, scope) && db.emails[e].unread
            && e in db.classifications && db.classifications[e].isNewsletter
  }

  // Unread in-scope members of one category that already have a summary.
  function CategoryItems(db: Db, runId: Uuid, scope: seq<Uuid>, category: Label): set<Uuid> {
    set e | && e in Members(db, runId, scope) && db.emails[e].unread
            && e in db.classifications && db.classifications[e].bucket == category
            && e in db.emailSummaries
  }

  // ------------------------------------------------------------------ counters

  function PendingClusters(cfg: Config, db: Db, userId: Uuid, runId: Uuid, scope: seq<Uuid>): nat {
    if !cfg.clusteringEnabled then 0
    else if |RunNewsletters(db, runId, scope)| < MIN_CLUSTER_NEWSLETTERS then 0
    else if ClusterFailed(db, runId) then 0
    else if RunClusterSummaries(db, userId, runId) != {} then 0
    else 1
  }

  predicate CategoryMissing(db: Db, runId: Uuid, scope: seq<Uuid>, category: Label) {
    CategoryItems(db, runId, scope, category) != {} && (runId, category) !in db.categoryDigests
  }

  // In the order of SUMMARIZABLE_LABELS.
  function MissingCategories(db: Db, runId: Uuid, scope: seq<Uuid>): seq<Label> {
    (if CategoryMissing(db, runId, scope, MustRead) then [MustRead] else [])
    + (if CategoryMissing(db, runId, scope, GoodToRead) then [GoodToRead] else [])
  }

  datatype Snapshot = Snapshot(
    ingested: nat, classified: nat, summarized: nat, newMustRead: nat,
    pendingUnclassified: nat, pendingSummaries: nat, pendingClusters: nat,
    pendingCategories: nat, promptErrors: nat, costCents: nat)
  {
    function PendingTotal(): nat {
      pendingUnclassified + pendingSummaries + pendingClusters + pendingCategories
    }
  }

  function ProgressSnapshot(cfg: Config, db: Db, userId: Uuid, runId: Uuid, scope: seq<Uuid>): Snapshot {
    var errors, cents := PromptErrors(db.promptLog, runId), CostCents(db.promptLog, runId);
    if scope == [] then Snapshot(0, 0, 0, 0, 0, 0, 0, 0, errors, cents)
    else
      Snapshot(
        |Members(db, runId, scope)|,
        |ClassifiedMembers(db, runId, scope)|,
        |SummarizedMembers(db, runId, scope)| + |RunClusterSummaries(db, userId, runId)|,
        |MustReadMembers(db, runId, scope)|,
        |Unclassified(db, runId, scope)|,
        |AwaitingSummary(db, runId, scope)|,
        PendingClusters(cfg, db, userId, runId, scope),
        |MissingCategories(db, runId, scope)|,
        errors,
        cents)
  }

  // ------------------------------------------------------------ counter lemmas

  lemma SubsetCardinality<T>(a: set<T>, b: set<T>)
    requires a <= b
    ensures |a| <= |b|
    ensures |a| == |b| ==> a == b
  {
    assert b == a + (b - a);
  }

  lemma {:induction false} PromptErrorsPositive(log: seq<PromptLogRow>, runId: Uuid)
    ensures PromptErrors(log, runId) > 0 <==> exists i | 0 <= i < |log| :: FatalRow(log[i], runId)
  {
    if log != [] {
      var front := log[..|log| - 1];
      PromptErrorsPositive(front, runId);
      assert forall i | 0 <= i < |front| :: front[i] == log[i];
      if i :| 0 <= i < |log| && FatalRow(log[i], runId) {
        if i < |front| { assert FatalRow(front[i], runId); }
      }
    }
  }

  // Without accounts in scope no row of any email is counted.
  lemma EmptyScopeCountsNothing(db: Db, runId: Uuid)
    ensures Unclassified(db, runId, []) == AwaitingSummary(db, runId, []) == RunNewsletters(db, runId, []) == {}
    ensures MissingCategories(db, runId, []) == []
  {
    assert forall c :: CategoryItems(db, runId, [], c) == {};
  }

  /** The snapshot's pending total is zero exactly when no work set has an element left. */
  lemma PendingTotalZero(cfg: Config, db: Db, userId: Uuid, runId: Uuid, scope: seq<Uuid>)
    ensures ProgressSnapshot(cfg, db, userId, runId, scope).PendingTotal() == 0 <==>
            && (forall e | e in Members(db, runId, scope) && db.emails[e].unread ::
                  && e in db.classifications
                  && (WantsSummary(db.classifications[e]) ==> e in db.emailSummaries || FatalFor(db, runId, e)))
            && PendingClusters(cfg, db, userId, runId, scope) == 0
            && (forall c | c in SUMMARIZABLE_LABELS :: !CategoryMissing(db, runId, scope, c))
  {
    var s := ProgressSnapshot(cfg, db, userId, runId, scope);
    EmptyScopeCountsNothing(db, runId);
    var u, a := Unclassified(db, runId, scope), AwaitingSummary(db, runId, scope);
    assert s.PendingTotal() == |u| + |a| + PendingClusters(cfg, db, userId, runId, scope)
        + |MissingCategories(db, runId, scope)|;
    if s.PendingTotal() == 0 {
      forall e | e in Members(db, runId, scope) && db.emails[e].unread
        ensures e in db.classifications
        ensures WantsSummary(db.classifications[e]) ==> e in db.emailSummaries || FatalFor(db, runId, e)
      {
        assert e !in u && e !in a;
      }
      assert MustRead !in MissingCategories(db, runId, scope);
      assert GoodToRead !in MissingCategories(db, runId, scope);
    } else if |u| > 0 {
      var e :| e in u;
      assert e in Members(db, runId, scope);
    } else if |a| > 0 {
      var e :| e in a;
      assert e in Members(db, runId, scope);
    } else if |MissingCategories(db, runId, scope)| > 0 {
      assert MustRead in SUMMARIZABLE_LABELS && GoodToRead in SUMMARIZABLE_LABELS;
    }
  }

  /** Progress never overstates: classified plus still unclassified stays within
      ingested, and meets it exactly when every unclassified member is unread. */
  lemma ClassifiedWithinIngested(cfg: Config, db: Db, userId: Uuid, runId: Uuid, scope: seq<Uuid>)
    ensures var s := ProgressSnapshot(cfg, db, userId, runId, scope);
            && s.classified + s.pendingUnclassified <= s.ingested
            && (s.classified + s.pendingUnclassified == s.ingested <==>
                forall e | e in Members(db, runId, scope) && e !in db.classifications :: db.emails[e].unread)
  {
    var m, c, u := Members(db, runId, scope), ClassifiedMembers(db, runId, scope), Unclassified(db, runId, scope);
    assert c !! u && |c + u| == |c| + |u|;
    SubsetCardinality(c + u, m);
    if scope == [] { assert m == {}; }
    if forall e | e in m && e !in db.classifications :: db.emails[e].unread {
      assert c + u == m;
    }
  }
}

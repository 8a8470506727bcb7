/**
 What a summary job and a cluster job leave behind, told by the outcome of their
 LLM calls: an answer writes the summary, a call whose providers all fail writes a
 fatal row, and a call the budget guard refuses writes nothing at all.
 */
module StageJobs {
  import opened PromptLog
  import opened Wrappers
  import opened Reliability
  import opened RunTables
  import opened RunMeasure
  import opened RunStranding
  import Llm = LlmClient
  import LlmClientLaws
  import RunLifecycle
  import RunLiveness
  import RunService

  datatype Caller = Caller(
    cfg: Llm.Config, oracle: Llm.Oracle, primary: string, fallbacks: seq<string>,
    promptVersionId: nat, specModel: string)

  function Micros(cost: real): nat {
    if cost <= 0.0 then 0 else (cost * 1000000.0).Floor
  }

  // The table row of one log record; the outer join finds its prompt's name.
  function LogRow(promptName: string, r: Llm.LogRecord): PromptLogRow {
    PromptLogRow(r.ticket.runId, r.ticket.emailId, r.status, Some(promptName), Micros(r.cost))
  }

  function LogRows(promptName: string, rows: seq<Llm.LogRecord>): seq<PromptLogRow> {
    seq(|rows|, i requires 0 <= i < |rows| => LogRow(promptName, rows[i]))
  }

  function Ask(c: Caller, emailId: Option<nat>, runId: Option<nat>,
      s: Llm.ClientState): (Llm.CallOutcome, Llm.ClientState) {
    var ticket := Llm.Ticket(c.promptVersionId, emailId, runId, c.specModel, None);
    Llm.Call(c.cfg, c.oracle, c.primary, c.fallbacks, ticket, true, false, s)
  }

  // The tables with the rows a call logged.
  function Logged(db: Db, promptName: string, before: Llm.ClientState, after: Llm.ClientState): Db {
    if before.rows <= after.rows
    then db.(promptLog := db.promptLog + LogRows(promptName, after.rows[|before.rows|..]))
    else db
  }

  // None is the lookup error for a mail that has vanished.
  function SummarizeEmail(c: Caller, promptName: string, db: Db, mail: Uuid, runId: Option<Uuid>, s: Llm.ClientState)
    : Option<(Db, Llm.ClientState)>
  {
    if mail !in db.emails then None
    else if mail in db.emailSummaries then Some((db, s))
    else
      var r := Ask(c, Some(mail), runId, s);
      var logged := Logged(db, promptName, s, r.1);
      Some((if r.0.Parsed? then logged.(emailSummaries := logged.emailSummaries + {mail}) else logged, r.1))
  }

  // What one call adds to the log.
  ghost predicate LogsOutcome(c: Caller, promptName: string, db: Db, db': Db, emailId: Option<nat>,
      runId: Option<nat>, s: Llm.ClientState) {
    var outcome := Ask(c, emailId, runId, s).0;
    if outcome.BudgetExceeded? then db' == db
    else
      && |db'.promptLog| == |db.promptLog| + 1 && db' == ApplyWork(db, LogCall(db'.promptLog[|db.promptLog|]))
      && (var row := db'.promptLog[|db.promptLog|];
          && row.runId == runId && row.emailId == emailId && row.promptName == Some(promptName)
          && (row.status == CallError <==> outcome.AllFailed?))
  }

  lemma CallLogs(c: Caller, promptName: string, db: Db, emailId: Option<nat>, runId: Option<nat>, s: Llm.ClientState)
    ensures var r := Ask(c, emailId, runId, s);
            && LogsOutcome(c, promptName, db, Logged(db, promptName, s, r.1), emailId, runId, s)
            && (r.0.BudgetExceeded? <==> Llm.OverBudget(c.oracle, s)) && !r.0.ReidentifyRefused?
            && (r.0.BudgetExceeded? ==> r.1 == Llm.CheckGuard(c.oracle, s))
  {
    hide Micros, Llm.TryChain;
    var ticket := Llm.Ticket(c.promptVersionId, emailId, runId, c.specModel, None);
    LlmClientLaws.OneRowPerCall(c.cfg, c.oracle, c.primary, c.fallbacks, ticket, s);
    var r := Ask(c, emailId, runId, s);
    var db' := Logged(db, promptName, s, r.1);
    if r.0.BudgetExceeded? {
      assert db.promptLog + [] == db.promptLog;
    } else {
      assert r.1.rows[|s.rows|..] == [r.1.rows[|s.rows|]];
      assert db'.promptLog == db.promptLog + [LogRow(promptName, r.1.rows[|s.rows|])];
    }
  }

  /** What a call costs the run: an answer its cost in whole micro-dollars, a call whose
      providers all fail nothing, a refused one no row. */
  lemma CallCosts(c: Caller, promptName: string, db: Db, emailId: Option<nat>, runId: Option<nat>, s: Llm.ClientState)
    ensures var r := Ask(c, emailId, runId, s);
            var log := Logged(db, promptName, s, r.1).promptLog;
            match r.0
            case Parsed(p, x) =>
              && |log| == |db.promptLog| + 1 && log[|db.promptLog|].runId == runId
              && log[|db.promptLog|].status == (if p == 0 then CallOk else CallFallback)
              && (x.cost >= 0.0 ==>
                    var micros := log[|db.promptLog|].costMicros as real;
                    micros <= 1000000.0 * x.cost < micros + 1.0)
            case AllFailed =>
              && |log| == |db.promptLog| + 1 && log[|db.promptLog|].costMicros == 0
              && log[|db.promptLog|].status == CallError
            case _ => log == db.promptLog
  {
    hide Llm.TryChain;
    var ticket := Llm.Ticket(c.promptVersionId, emailId, runId, c.specModel, None);
    LlmClientLaws.OneRowPerCall(c.cfg, c.oracle, c.primary, c.fallbacks, ticket, s);
    var r := Ask(c, emailId, runId, s);
    if r.0.BudgetExceeded? {
      assert db.promptLog + [] == db.promptLog;
    } else {
      assert r.1.rows[|s.rows|..] == [r.1.rows[|s.rows|]];
    }
  }

  /** A summary job settles the mail it was sent for, by a summary or by a fatal row,
      unless the budget guard refuses its call; then the mail is owed as before, and
      the job is acknowledged all the same. */
  lemma SummaryJobSettles(t: Target, c: Caller, promptName: string, db: Db, mail: Uuid, s: Llm.ClientState)
    requires mail in t.Awaiting(db) && promptName !in {"unsubscribe_borderline", "category_digest"}
    ensures var r := SummarizeEmail(c, promptName, db, mail, Some(t.runId), s);
            && r.Some?
            && (StillOwed(t, r.value.0, OwedSummary(mail)) <==> Llm.OverBudget(c.oracle, s))
            && (Llm.OverBudget(c.oracle, s) ==> r.value.0 == db)
  {
    hide FatalPrompt, Micros, Llm.OverBudget, Llm.Call, Logged;
    var r := Ask(c, Some(mail), Some(t.runId), s);
    CallLogs(c, promptName, db, Some(mail), Some(t.runId), s);
    var logged := Logged(db, promptName, s, r.1);
    if !r.0.BudgetExceeded? {
      var row := logged.promptLog[|db.promptLog|];
      SummaryFreedByWork(t, db, LogCall(row), mail);
      if r.0.Parsed? { SummaryWritten(t, logged, mail); }
    }
  }

  /** A mail that has its summary is not asked for again, and one that has vanished is a
      lookup error; neither asks a provider. */
  lemma SummaryJobSkips(c: Caller, promptName: string, db: Db, mail: Uuid, runId: Option<Uuid>, s: Llm.ClientState)
    ensures mail !in db.emails <==> SummarizeEmail(c, promptName, db, mail, runId, s).None?
    ensures mail in db.emails && mail in db.emailSummaries ==>
              SummarizeEmail(c, promptName, db, mail, runId, s) == Some((db, s))
    ensures mail in db.emails ==>
              var db' := SummarizeEmail(c, promptName, db, mail, runId, s).value.0;
              db.emailSummaries <= db'.emailSummaries <= db.emailSummaries + {mail}
              && db' == db.(emailSummaries := db'.emailSummaries, promptLog := db'.promptLog)
  {
    hide Llm.Call, Micros;
  }

  lemma SummaryWritten(t: Target, db: Db, mail: Uuid)
    ensures mail !in t.Awaiting(db.(emailSummaries := db.emailSummaries + {mail}))
  {
  }

  /** With a client built for the record at hand, as every handler builds one, the
      guard has spent nothing: the job leaves its mail owed exactly when a cap is set
      that is not above zero. */
  lemma FreshClientSettles(t: Target, c: Caller, promptName: string, db: Db, mail: Uuid, s: Llm.ClientState)
    requires mail in t.Awaiting(db) && promptName !in {"unsubscribe_borderline", "category_digest"}
    requires s.guard.Some? ==> s.guard.value.spent == 0.0
    ensures var r := SummarizeEmail(c, promptName, db, mail, Some(t.runId), s);
            r.Some? && (StillOwed(t, r.value.0, OwedSummary(mail)) <==>
                        s.guard.Some? && s.guard.value.cap.Some? && s.guard.value.cap.value <= 0.0)
  {
    hide SummarizeEmail, FatalPrompt;
    SummaryJobSettles(t, c, promptName, db, mail, s);
  }

  // ------------------------------------------------------------ the cluster job

  const CLUSTER_PROMPT := "newsletter_group"

  // The newsletters routed to one cluster key, with the row the key upserts.
  datatype Group = Group(cluster: Uuid, size: nat)

  // One group's turn: its cluster row, then its call.
  function AfterGroup(c: Caller, db: Db, userId: Uuid, runId: Option<Uuid>, cluster: Uuid, s: Llm.ClientState): Db {
    var upserted := db.(clusters := db.clusters[cluster := Cluster(userId, runId)]);
    var r := Ask(c, None, runId, s);
    var logged := Logged(upserted, CLUSTER_PROMPT, s, r.1);
    if r.0.Parsed? then logged.(clusterSummaries := logged.clusterSummaries + {cluster}) else logged
  }

  function SummarizeGroups(c: Caller, db: Db, userId: Uuid, runId: Option<Uuid>, groups: seq<Group>, minSize: nat,
      s: Llm.ClientState)
    : (Db, Llm.ClientState)
    decreases |groups|
  {
    if groups == [] then (db, s)
    else if groups[0].size < minSize then SummarizeGroups(c, db, userId, runId, groups[1..], minSize, s)
    else
      var after := AfterGroup(c, db, userId, runId, groups[0].cluster, s);
      SummarizeGroups(c, after, userId, runId, groups[1..], minSize, Ask(c, None, runId, s).1)
  }

  // A run that has a cluster summary already is left alone.
  function ClusterJob(c: Caller, db: Db, userId: Uuid, runId: Uuid, groups: seq<Group>, minSize: nat,
      s: Llm.ClientState)
    : (Db, Llm.ClientState)
  {
    if groups == [] || RunClusterSummaries(db, userId, runId) != {} then (db, s)
    else SummarizeGroups(c, db, userId, Some(runId), groups, minSize, s)
  }

  // Every group is too small, or the guard refuses it when its turn comes.
  predicate AllRefused(c: Caller, groups: seq<Group>, minSize: nat, s: Llm.ClientState)
    decreases |groups|
  {
    groups == [] ||
    if groups[0].size < minSize then AllRefused(c, groups[1..], minSize, s)
    else Llm.OverBudget(c.oracle, s) && AllRefused(c, groups[1..], minSize, Llm.CheckGuard(c.oracle, s))
  }

  // An upsert meets the run's own row or a new one, and summaries have clusters.
  ghost predicate Upserts(db: Db, userId: Uuid, runId: Uuid, groups: seq<Group>) {
    && db.clusterSummaries <= db.clusters.Keys
    && forall g | g in groups && g.cluster in db.clusters :: db.clusters[g.cluster] == Cluster(userId, Some(runId))
  }

  predicate Settled(db: Db, userId: Uuid, runId: Uuid) {
    RunClusterSummaries(db, userId, runId) != {} || ClusterFailed(db, runId)
  }

  lemma GroupSettles(c: Caller, db: Db, userId: Uuid, runId: Uuid, groups: seq<Group>, s: Llm.ClientState)
    requires groups != [] && Upserts(db, userId, runId, groups)
    ensures var db' := AfterGroup(c, db, userId, Some(runId), groups[0].cluster, s);
            && (Settled(db', userId, runId) <==> Settled(db, userId, runId) || !Llm.OverBudget(c.oracle, s))
            && Upserts(db', userId, runId, groups[1..])
            && db'.emails == db.emails && db'.members == db.members && db'.classifications == db.classifications
  {
    hide Micros, Llm.OverBudget, Llm.Call, Logged;
    var k := groups[0].cluster;
    var upserted := db.(clusters := db.clusters[k := Cluster(userId, Some(runId))]);
    var r := Ask(c, None, Some(runId), s);
    var logged := Logged(upserted, CLUSTER_PROMPT, s, r.1);
    CallLogs(c, CLUSTER_PROMPT, upserted, None, Some(runId), s);
    assert RunClusterSummaries(upserted, userId, runId) == RunClusterSummaries(db, userId, runId);
    if r.0.BudgetExceeded? {
      assert logged == upserted;
    } else {
      var row := logged.promptLog[|db.promptLog|];
      ClusterFailedAppend(upserted, row, runId);
      assert RunClusterSummaries(logged, userId, runId) == RunClusterSummaries(upserted, userId, runId);
      if r.0.Parsed? {
        var db' := AfterGroup(c, db, userId, Some(runId), k, s);
        assert k in RunClusterSummaries(db', userId, runId);
      }
    }
  }

  lemma {:induction false} GroupsSettle(c: Caller, db: Db, userId: Uuid, runId: Uuid, groups: seq<Group>,
      minSize: nat, s: Llm.ClientState)
    requires Upserts(db, userId, runId, groups)
    ensures var db' := SummarizeGroups(c, db, userId, Some(runId), groups, minSize, s).0;
            && (Settled(db', userId, runId) <==> Settled(db, userId, runId) || !AllRefused(c, groups, minSize, s))
            && db'.emails == db.emails && db'.members == db.members && db'.classifications == db.classifications
    decreases |groups|
  {
    hide Settled, Llm.OverBudget, Llm.CheckGuard, Logged, Llm.Call;
    if groups == [] {
    } else if groups[0].size < minSize {
      GroupsSettle(c, db, userId, runId, groups[1..], minSize, s);
    } else {
      GroupSettles(c, db, userId, runId, groups, s);
      CallLogs(c, CLUSTER_PROMPT, db, None, Some(runId), s);
      var r := Ask(c, None, Some(runId), s);
      GroupsSettle(c, AfterGroup(c, db, userId, Some(runId), groups[0].cluster, s), userId, runId, groups[1..],
                   minSize, r.1);
    }
  }

  /** A cluster job settles the run's cluster exactly when some group of the minimum
      size gets past the budget guard. */
  lemma ClusterJobSettles(t: Target, c: Caller, db: Db, groups: seq<Group>, minSize: nat, s: Llm.ClientState)
    requires t.Clusters(db) == 1 && Upserts(db, t.userId, t.runId, groups)
    ensures StillOwed(t, ClusterJob(c, db, t.userId, t.runId, groups, minSize, s).0, OwedCluster)
        <==> AllRefused(c, groups, minSize, s)
  {
    hide SummarizeGroups, AllRefused;
    GroupsSettle(c, db, t.userId, t.runId, groups, minSize, s);
    var db' := ClusterJob(c, db, t.userId, t.runId, groups, minSize, s).0;
    assert Members(db', t.runId, t.scope) == Members(db, t.runId, t.scope);
    assert RunNewsletters(db', t.runId, t.scope) == RunNewsletters(db, t.runId, t.scope);
    if groups == [] { NoGroups(c, minSize, s); }
  }

  /** A run that has its cluster summary is left alone. */
  lemma ClusterJobSkips(c: Caller, db: Db, userId: Uuid, runId: Uuid, groups: seq<Group>, minSize: nat,
      s: Llm.ClientState, k: Uuid)
    requires k in db.clusterSummaries && k in db.clusters && db.clusters[k] == Cluster(userId, Some(runId))
    ensures ClusterJob(c, db, userId, runId, groups, minSize, s) == (db, s)
  {
    hide SummarizeGroups;
    assert k in RunClusterSummaries(db, userId, runId);
  }

  lemma NoGroups(c: Caller, minSize: nat, s: Llm.ClientState)
    ensures AllRefused(c, [], minSize, s)
  {
  }

  lemma {:induction false} SmallGroupsDoNothing(c: Caller, db: Db, userId: Uuid, runId: Option<Uuid>,
      groups: seq<Group>, minSize: nat, s: Llm.ClientState)
    requires forall g | g in groups :: g.size < minSize
    ensures SummarizeGroups(c, db, userId, runId, groups, minSize, s) == (db, s)
    decreases |groups|
  {
    if groups != [] { SmallGroupsDoNothing(c, db, userId, runId, groups[1..], minSize, s); }
  }

  // ------------------------------------------------------------ stranded runs

  /** The promise that a run is not stranded fails. From an empty database a live run
      is reached that waits for its cluster alone, the cluster claimed and its job
      sent; the job, finding two groups of one newsletter each, changes nothing. By
      RunStranding.OwedRunGoesOn the run then goes on until a step frees the
      cluster. */
  lemma EmptyClusterJobStrandsRun(cfg: Config, c: Caller, s: Llm.ClientState)
    returns (states: seq<RunLifecycle.State>, events: seq<RunLifecycle.Event>, end: RunLifecycle.State)
    requires cfg.Lawful() && cfg.clusteringEnabled
    ensures Reaches(cfg, states, events, end)
    ensures GoesOn(cfg, Watch(cfg), end.db) && StillOwed(Watch(cfg), end.db, OwedCluster)
        && Measure(Watch(cfg), end.db) == 1
    ensures RunService.Claimed(end.db, RunService.ClusterClaim(0))
        && RunLiveness.HasMessage(end, RunService.ClusterClaim(0))
    ensures ClusterJob(c, end.db, 0, 0, [Group(1, 1), Group(2, 1)], MIN_CLUSTER_NEWSLETTERS, s) == (end.db, s)
  {
    hide SummarizeGroups;
    states, events, end := ClusterOwedIsReached(cfg);
    SmallGroupsDoNothing(c, end.db, 0, Some(0), [Group(1, 1), Group(2, 1)], MIN_CLUSTER_NEWSLETTERS, s);
  }

  /** So does it without any newsletter: a reached run waits for one summary, and the
      job sent for it, refused by the budget guard, changes nothing. */
  lemma RefusedSummaryStrandsRun(cfg: Config, c: Caller, promptName: string, s: Llm.ClientState)
    returns (states: seq<RunLifecycle.State>, events: seq<RunLifecycle.Event>)
    requires cfg.Lawful() && promptName !in {"unsubscribe_borderline", "category_digest"} && Llm.OverBudget(c.oracle, s)
    ensures Reaches(cfg, states, events, RunLifecycle.State(OneDueMail(cfg), []))
    ensures var db := OneDueMail(cfg);
            && GoesOn(cfg, Watch(cfg), db) && StillOwed(Watch(cfg), db, OwedSummary(1))
            && SummarizeEmail(c, promptName, db, 1, Some(0), s).Some?
            && SummarizeEmail(c, promptName, db, 1, Some(0), s).value.0 == db
  {
    hide SummarizeEmail, Llm.OverBudget, FatalPrompt;
    states, events := SummaryOwedIsReached(cfg);
    SummaryJobSettles(Watch(cfg), c, promptName, OneDueMail(cfg), 1, s);
  }
}

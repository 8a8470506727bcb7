/**
 The worker entry points: one transaction for a record's row work, a second one
 for its claims, sends and the finalize call, and a batch loop that reports the
 records that raised.
 */
module LambdaWorker {
  import opened Wrappers
  import opened RunTables
  import opened RunService
  import opened RunFinalizeLaws
  import opened RunDispatchLaws

  datatype Stage = IngestStage | ClassifyStage | SummarizeStage | UnsubscribeStage | UnknownStage

  // Which environment variables are set.
  datatype Env = Env(
    tokenKey: bool, contentKey: bool, rawBucket: bool,
    classifyQueue: bool, summarizeQueue: bool, unsubscribeQueue: bool)

  // One decoded record. `work` is the stage handler: None when it raises.
  // `classifyJobs` and `summaryJobs` are the emails its follow-up queries select. A
  // category job names no user: its `userId` is the owner of the run it looks up.
  datatype Job = Job(
    userId: Uuid, accountId: Uuid, runId: Option<Uuid>,
    storeRawMime: bool, newMail: bool, categoryJob: bool,
    work: Db -> Option<Db>,
    classifyJobs: Db -> seq<Uuid>, summaryJobs: Db -> seq<Uuid>,
    digestBuilder: (Db, Uuid, Label) -> Option<Built>,
    sendFails: Message -> bool)

  // `job` is None when the body does not parse.
  datatype Record = Record(messageId: Option<string>, source: Option<string>, job: Option<Job>)

  datatype Handled = Handled(db: Db, sent: seq<Message>, raised: bool)

  // A handler either stops early or reaches the finalize call. `base` is what a
  // rollback returns to, `worked` the tables with the row work, `db` those the
  // finalize call starts from.
  datatype Progress =
    | Stops(outcome: Handled)
    | Reaches(base: Db, worked: Db, db: Db, sent: seq<Message>)

  // ------------------------------------------------------------- stage routing

  function TailSegment(s: string): string {
    if '-' !in s then s else TailSegment(s[1..])
  }

  function StageOf(source: Option<string>): Stage {
    match TailSegment(if source.Some? then source.value else "<unknown>")
    case "ingest" => IngestStage
    case "classify" => ClassifyStage
    case "summarize" => SummarizeStage
    case "unsubscribe" => UnsubscribeStage
    case _ => UnknownStage
  }

  // ------------------------------------------------------------- specification

  function MarkedRunning(db: Db, runId: Option<Uuid>): Db {
    if runId.Some? && runId.value in db.runs then StartRunning(db, runId.value) else db
  }

  function Worked(db: Db, job: Job): Option<Db> {
    job.work(MarkedRunning(db, job.runId))
  }

  function ClassifyMessages(ids: seq<Uuid>): seq<Message> {
    seq(|ids|, i requires 0 <= i < |ids| => ClassifyMessage(ids[i]))
  }

  function SummarizeMessages(ids: seq<Uuid>): seq<Message> {
    seq(|ids|, i requires 0 <= i < |ids| => SummarizeMessage(ids[i]))
  }

  // Messages in order up to the first send that raises.
  function SendEach(jobs: seq<Message>, fails: Message -> bool): (seq<Message>, bool) {
    if jobs == [] then ([], false)
    else if fails(jobs[0]) then ([], true)
    else
      var rest := SendEach(jobs[1..], fails);
      ([jobs[0]] + rest.0, rest.1)
  }

  function SendHygiene(db: Db, job: Job, now: int): Dispatch {
    var m := HygieneMessage(job.userId, job.accountId, job.runId);
    if job.runId.None? then
      (if job.sendFails(m) then Dispatch(db, [], false, true) else Dispatch(db, [m], false, false))
    else if !CanClaim(db, HygieneClaim(job.runId.value, job.accountId)) then Dispatch(db, [], false, false)
    else
      var claimed := TakeClaim(db, HygieneClaim(job.runId.value, job.accountId), now);
      if job.sendFails(m) then Dispatch(claimed, [], false, true) else Dispatch(claimed, [m], false, false)
  }

  function PortsOf(env: Env, stage: Stage, job: Job): Ports {
    Ports(env.summarizeQueue,
          if stage.SummarizeStage? && !env.summarizeQueue then Some(job.digestBuilder) else None,
          env.summarizeQueue, job.sendFails)
  }

  function ClassifyProgress(env: Env, db: Db, job: Job, now: int): Progress {
    if !env.contentKey || Worked(db, job).None? then Stops(Handled(db, [], true))
    else
      var w := Worked(db, job).value;
      var jobs := if env.summarizeQueue then SendEach(SummarizeMessages(job.summaryJobs(w)), job.sendFails)
        else ([], false);
      if jobs.1 then Stops(Handled(w, jobs.0, true))
      else
        var h := if env.unsubscribeQueue then SendHygiene(w, job, now) else Dispatch(w, [], false, false);
        if h.raised then Stops(Handled(w, jobs.0 + h.sent, true))
        else Reaches(w, w, h.db, jobs.0 + h.sent)
  }

  function IngestProgress(env: Env, db: Db, job: Job): Progress {
    if !env.tokenKey || !env.contentKey || (job.storeRawMime && !env.rawBucket) || Worked(db, job).None? then
      Stops(Handled(db, [], true))
    else
      var w := Worked(db, job).value;
      var first := if env.classifyQueue && (job.runId.Some? || job.newMail) then
        SendEach(ClassifyMessages(job.classifyJobs(w)), job.sendFails) else ([], false);
      if first.1 then Stops(Handled(w, first.0, true))
      else
        var second := if env.summarizeQueue then SendEach(SummarizeMessages(job.summaryJobs(w)), job.sendFails)
          else ([], false);
        if second.1 then Stops(Handled(w, first.0 + second.0, true))
        else Reaches(w, w, w, first.0 + second.0)
  }

  // A category job whose run is gone is acknowledged without doing anything.
  function SummarizeProgress(env: Env, db: Db, job: Job): Progress {
    if !env.contentKey then Stops(Handled(db, [], true))
    else if job.categoryJob && (job.runId.None? || job.runId.value !in db.runs) then Stops(Handled(db, [], false))
    else if Worked(db, job).None? then Stops(Handled(db, [], true))
    else Reaches(Worked(db, job).value, Worked(db, job).value, Worked(db, job).value, [])
  }

  // The one stage that does not commit its row work before finalizing.
  function UnsubscribeProgress(env: Env, db: Db, job: Job): Progress {
    if !env.contentKey || Worked(db, job).None? then Stops(Handled(db, [], true))
    else Reaches(db, Worked(db, job).value, Worked(db, job).value, [])
  }

  function ProgressOf(env: Env, stage: Stage, db: Db, job: Job, now: int): Progress {
    match stage
    case IngestStage => IngestProgress(env, db, job)
    case ClassifyStage => ClassifyProgress(env, db, job, now)
    case SummarizeStage => SummarizeProgress(env, db, job)
    case UnsubscribeStage => UnsubscribeProgress(env, db, job)
    case UnknownStage => Stops(Handled(db, [], false))
  }

  function Conclusion(cfg: Config, p: Progress, job: Job, ports: Ports, ans: Answers, now: int): Handled {
    match p
    case Stops(h) => h
    case Reaches(base, _, db, sent) =>
      var o := FinalizeCall(cfg, db, job.userId, job.runId, ports, ans, now);
      Handled(if o.raised then base else o.db, sent + o.sent, o.raised)
  }

  function HandleRecord(cfg: Config, env: Env, db: Db, record: Record, ans: Answers, now: int): Handled {
    var stage := StageOf(record.source);
    if stage.UnknownStage? then Handled(db, [], false)
    else if record.job.None? then Handled(db, [], true)
    else
      Conclusion(cfg, ProgressOf(env, stage, db, record.job.value, now), record.job.value,
                 PortsOf(env, stage, record.job.value), ans, now)
  }

  ghost predicate Fits(cfg: Config, p: Progress, job: Job, ports: Ports, ans: Answers) {
    p.Reaches? && job.runId.Some? && Live(p.db, job.userId, job.runId.value) ==>
      AnswersFit(cfg, p.db, job.userId, job.runId.value, ports, ans)
  }

  function MessageIdOf(r: Record): string {
    if r.messageId.Some? then r.messageId.value else "<no-id>"
  }

  // The whole batch, record after record, with the answers each record met.
  function HandleBatch(cfg: Config, env: Env, db: Db, records: seq<Record>, answers: seq<Answers>,
      now: int): (Db, seq<Message>, seq<string>)
    requires |answers| == |records|
  {
    if records == [] then (db, [], [])
    else
      var n := |records| - 1;
      var before := HandleBatch(cfg, env, db, records[..n], answers[..n], now);
      var h := HandleRecord(cfg, env, before.0, records[n], answers[n], now);
      (h.db, before.1 + h.sent, before.2 + (if h.raised then [MessageIdOf(records[n])] else []))
  }

  // ------------------------------------------------------------------ handlers

  class Worker {
    var committed: Db
    var outbox: seq<Message>

    constructor (db: Db)
      ensures committed == db && outbox == []
    {
      committed, outbox := db, [];
    }

    // Mark the run running, then run the stage handler on the same session.
    method DoWork(session: Session, job: Job) returns (done: bool)
      modifies session`db
      ensures done <==> Worked(old(session.db), job).Some?
      ensures done ==> session.db == Worked(old(session.db), job).value
    {
      session.MarkRunRunning(job.runId);
      var worked := job.work(session.db);
      done := worked.Some?;
      if done { session.db := worked.value; }
    }

    method SendJobs(session: Session, jobs: seq<Message>, ports: Ports) returns (raised: bool)
      modifies session`outbox
      ensures session.outbox == old(session.outbox) + SendEach(jobs, ports.sendFails).0
      ensures raised == SendEach(jobs, ports.sendFails).1
    {
      raised := false;
      var i := 0;
      ghost var whole := SendEach(jobs, ports.sendFails);
      ghost var before := session.outbox;
      assert jobs[0..] == jobs;
      while i < |jobs|
        invariant 0 <= i <= |jobs|
        invariant before + whole.0 == session.outbox + SendEach(jobs[i..], ports.sendFails).0
        invariant whole.1 == SendEach(jobs[i..], ports.sendFails).1
      {
        assert jobs[i..][0] == jobs[i] && jobs[i..][1..] == jobs[i + 1..];
        raised := session.Send(jobs[i], ports);
        if raised { return; }
        i := i + 1;
      }
    }

    // Finalize, then commit or roll back, then publish what was sent.
    method FinalizeAndCommit(cfg: Config, job: Job, session: Session, ports: Ports, now: int, ghost p: Progress)
      returns (raised: bool, ghost ans: Answers)
      requires p.Reaches? && p.base == committed && p.db == session.db && p.sent == session.outbox
      modifies this, session
      ensures Fits(cfg, p, job, ports, ans)
      ensures var h := Conclusion(cfg, p, job, ports, ans, now);
              committed == h.db && outbox == old(outbox) + h.sent && raised == h.raised
    {
      hide FinalizeCall, AnswersFit;
      var finished;
      finished, raised, ans := session.MaybeFinalizeRun(cfg, job.userId, job.runId, ports, now);
      if !raised { committed := session.db; }
      outbox := outbox + session.outbox;
    }

    method HandleClassifyRecord(cfg: Config, env: Env, job: Job, now: int) returns (raised: bool, ghost ans: Answers)
      modifies this
      ensures var ports, p := PortsOf(env, ClassifyStage, job), ClassifyProgress(env, old(committed), job, now);
              && Fits(cfg, p, job, ports, ans)
              && (var h := Conclusion(cfg, p, job, ports, ans, now);
                  committed == h.db && outbox == old(outbox) + h.sent && raised == h.raised)
    {
      hide FinalizeCall, AnswersFit, Worked, SendEach, ClassifyMessages, SummarizeMessages;
      raised, ans := true, Answers([], []);
      var ports := PortsOf(env, ClassifyStage, job);
      if !env.contentKey { return; }
      var session := new Session(committed);
      var done := DoWork(session, job);
      if !done { return; }
      committed := session.db;
      if env.summarizeQueue {
        var stopped := SendJobs(session, SummarizeMessages(job.summaryJobs(session.db)), ports);
        if stopped { outbox := outbox + session.outbox; return; }
      }
      if env.unsubscribeQueue {
        var won := session.MarkUnsubscribeHygieneEnqueued(job.runId, job.accountId, now);
        if won {
          var stopped := session.Send(HygieneMessage(job.userId, job.accountId, job.runId), ports);
          if stopped { outbox := outbox + session.outbox; return; }
        }
      }
      raised, ans := FinalizeAndCommit(cfg, job, session, ports, now, ClassifyProgress(env, old(committed), job, now));
    }

    method HandleIngestRecord(cfg: Config, env: Env, job: Job, now: int) returns (raised: bool, ghost ans: Answers)
      modifies this
      ensures var ports, p := PortsOf(env, IngestStage, job), IngestProgress(env, old(committed), job);
              && Fits(cfg, p, job, ports, ans)
              && (var h := Conclusion(cfg, p, job, ports, ans, now);
                  committed == h.db && outbox == old(outbox) + h.sent && raised == h.raised)
    {
      hide FinalizeCall, AnswersFit, Worked, SendEach, ClassifyMessages, SummarizeMessages;
      raised, ans := true, Answers([], []);
      var ports := PortsOf(env, IngestStage, job);
      if !env.tokenKey || !env.contentKey { return; }
      if job.storeRawMime && !env.rawBucket { return; }
      var session := new Session(committed);
      var done := DoWork(session, job);
      if !done { return; }
      committed := session.db;
      if env.classifyQueue && (job.runId.Some? || job.newMail) {
        var stopped := SendJobs(session, ClassifyMessages(job.classifyJobs(session.db)), ports);
        if stopped { outbox := outbox + session.outbox; return; }
      }
      if env.summarizeQueue {
        var stopped := SendJobs(session, SummarizeMessages(job.summaryJobs(session.db)), ports);
        if stopped { outbox := outbox + session.outbox; return; }
      }
      raised, ans := FinalizeAndCommit(cfg, job, session, ports, now, IngestProgress(env, old(committed), job));
    }

    method HandleSummarizeRecord(cfg: Config, env: Env, job: Job, now: int) returns (raised: bool, ghost ans: Answers)
      modifies this
      ensures var ports, p := PortsOf(env, SummarizeStage, job), SummarizeProgress(env, old(committed), job);
              && Fits(cfg, p, job, ports, ans)
              && (var h := Conclusion(cfg, p, job, ports, ans, now);
                  committed == h.db && outbox == old(outbox) + h.sent && raised == h.raised)
    {
      hide FinalizeCall, AnswersFit, Worked;
      raised, ans := true, Answers([], []);
      if !env.contentKey { return; }
      var session := new Session(committed);
      if job.categoryJob && (job.runId.None? || job.runId.value !in session.db.runs) {
        raised := false;
        return;
      }
      var done := DoWork(session, job);
      if !done { return; }
      committed := session.db;
      var ports := PortsOf(env, SummarizeStage, job);
      raised, ans := FinalizeAndCommit(cfg, job, session, ports, now, SummarizeProgress(env, old(committed), job));
    }

    method HandleUnsubscribeRecord(cfg: Config, env: Env, job: Job, now: int) returns (raised: bool, ghost ans: Answers)
      modifies this
      ensures var ports, p := PortsOf(env, UnsubscribeStage, job), UnsubscribeProgress(env, old(committed), job);
              && Fits(cfg, p, job, ports, ans)
              && (var h := Conclusion(cfg, p, job, ports, ans, now);
                  committed == h.db && outbox == old(outbox) + h.sent && raised == h.raised)
    {
      hide FinalizeCall, AnswersFit, Worked;
      raised, ans := true, Answers([], []);
      if !env.contentKey { return; }
      var session := new Session(committed);
      var done := DoWork(session, job);
      if !done { return; }
      var ports := PortsOf(env, UnsubscribeStage, job);
      raised, ans := FinalizeAndCommit(cfg, job, session, ports, now, UnsubscribeProgress(env, old(committed), job));
    }

    method Route(cfg: Config, env: Env, record: Record, now: int) returns (raised: bool, ghost ans: Answers)
      modifies this
      ensures var h := HandleRecord(cfg, env, old(committed), record, ans, now);
              committed == h.db && outbox == old(outbox) + h.sent && raised == h.raised
    {
      hide FinalizeCall, ClassifyProgress, IngestProgress, SummarizeProgress, UnsubscribeProgress, Fits, TailSegment;
      raised, ans := false, Answers([], []);
      var stage := StageOf(record.source);
      if stage.UnknownStage? { return; }
      if record.job.None? { return true, ans; }
      match stage {
        case IngestStage => raised, ans := HandleIngestRecord(cfg, env, record.job.value, now);
        case ClassifyStage => raised, ans := HandleClassifyRecord(cfg, env, record.job.value, now);
        case SummarizeStage => raised, ans := HandleSummarizeRecord(cfg, env, record.job.value, now);
        case UnsubscribeStage => raised, ans := HandleUnsubscribeRecord(cfg, env, record.job.value, now);
      }
    }

    method SqsDispatcher(cfg: Config, env: Env, records: seq<Record>, now: int)
      returns (failures: seq<string>, ghost answers: seq<Answers>)
      modifies this
      ensures |answers| == |records|
      ensures var b := HandleBatch(cfg, env, old(committed), records, answers, now);
              committed == b.0 && outbox == old(outbox) + b.1 && failures == b.2
    {
      hide HandleRecord;
      failures, answers := [], [];
      for i := 0 to |records|
        invariant |answers| == i
        invariant var b := HandleBatch(cfg, env, old(committed), records[..i], answers, now);
                  committed == b.0 && outbox == old(outbox) + b.1 && failures == b.2
      {
        ghost var before := HandleBatch(cfg, env, old(committed), records[..i], answers, now);
        var raised;
        ghost var ans;
        raised, ans := Route(cfg, env, records[i], now);
        if raised { failures := failures + [MessageIdOf(records[i])]; }
        assert records[..i + 1][..i] == records[..i] && (answers + [ans])[..i] == answers;
        answers := answers + [ans];
      }
      assert records[..|records|] == records;
    }
  }

  // ---------------------------------------------------------------------- laws

  lemma {:induction false} EmailJobsTakeNoClaim(jobs: seq<Message>, fails: Message -> bool)
    requires forall m | m in jobs :: KeyOf(m).None?
    ensures forall m | m in SendEach(jobs, fails).0 :: KeyOf(m).None?
  {
    if jobs != [] { EmailJobsTakeNoClaim(jobs[1..], fails); }
  }

  lemma HygieneTakesItsClaim(db: Db, job: Job, now: int, k: ClaimKey)
    ensures var d := SendHygiene(db, job, now);
            && d.db.runs == db.runs && (Claimed(db, k) ==> Claimed(d.db, k))
            && (!d.raised ==>
                  ((!Claimed(db, k) && Claimed(d.db, k)) <==> exists m :: m in d.sent && KeyOf(m) == Some(k)))
            && (forall m | m in d.sent :: m.HygieneMessage?)
  {
    var d := SendHygiene(db, job, now);
    if d.sent != [] { assert d.sent[0] in d.sent; }
  }

  // The environment a stage checks before it does anything.
  predicate KeysPresent(env: Env, stage: Stage, job: Job) {
    && env.contentKey
    && (stage.IngestStage? ==> env.tokenKey && (job.storeRawMime ==> env.rawBucket))
  }

  // The stage's row work was done.
  predicate WorkDone(env: Env, db: Db, record: Record) {
    && record.job.Some? && KeysPresent(env, StageOf(record.source), record.job.value)
    && Worked(db, record.job.value).Some?
  }

  /** What a record that raises leaves: its row work alone if that was done, and the
      tables as they were if not; never a claim, never finalize's progress. Work
      that was done is kept exactly in the stages other than unsubscribe, which has
      not committed it by then. */
  lemma RaisedKeepsRowWorkOnly(cfg: Config, env: Env, db: Db, record: Record, ans: Answers, now: int)
    requires HandleRecord(cfg, env, db, record, ans, now).raised
    ensures var h := HandleRecord(cfg, env, db, record, ans, now);
            var kept := WorkDone(env, db, record) && !StageOf(record.source).UnsubscribeStage?;
            && h.db == (if kept then Worked(db, record.job.value).value else db)
            && (WorkDone(env, db, record) && Worked(db, record.job.value) != Some(db) ==>
                  (Worked(db, record.job.value) == Some(h.db) <==> !StageOf(record.source).UnsubscribeStage?))
  {
    hide FinalizeCall, TailSegment;
  }

  // A claim the finalize part takes by building its digest inline, which only a
  // summarize worker without a summarize queue does.
  ghost predicate BuiltAtEnd(cfg: Config, db: Db, job: Job, ports: Ports, ans: Answers, k: ClaimKey) {
    && job.runId.Some? && Live(db, job.userId, job.runId.value)
    && BuiltHere(cfg, db, job.runId.value, job.userId, ports, ans, k)
  }

  /** A record handled to the end commits, beyond its row work, exactly the claims
      whose messages it sent or whose digests it built. */
  lemma HandledClaimsAreSends(cfg: Config, env: Env, db: Db, stage: Stage, job: Job, ans: Answers, now: int,
      k: ClaimKey)
    requires cfg.Lawful()
    requires var p := ProgressOf(env, stage, db, job, now);
             p.Reaches? && !Conclusion(cfg, p, job, PortsOf(env, stage, job), ans, now).raised
    ensures var p, ports := ProgressOf(env, stage, db, job, now), PortsOf(env, stage, job);
            var h := Conclusion(cfg, p, job, ports, ans, now);
            && (!Claimed(p.worked, k) && Claimed(h.db, k) <==>
                  (exists m :: m in h.sent && KeyOf(m) == Some(k)) || BuiltAtEnd(cfg, p.db, job, ports, ans, k))
            && (BuiltAtEnd(cfg, p.db, job, ports, ans, k) ==> stage.SummarizeStage? && !env.summarizeQueue)
  {
    hide FinalizeCall, BuiltHere;
    var p, ports := ProgressOf(env, stage, db, job, now), PortsOf(env, stage, job);
    FinalClaims(cfg, p.db, job, ports, ans, now, k);
    BeforeClaims(env, stage, db, job, now, k);
    BuildersAreRare(cfg, env, stage, p.db, job, ans, k);
    if stage.SummarizeStage? { assert p.sent == [] && p.db == p.worked; }
  }

  lemma BuildersAreRare(cfg: Config, env: Env, stage: Stage, db: Db, job: Job, ans: Answers, k: ClaimKey)
    ensures BuiltAtEnd(cfg, db, job, PortsOf(env, stage, job), ans, k)
        ==> stage.SummarizeStage? && !env.summarizeQueue && !Claimed(db, k)
  {
    hide ProgressSnapshot, MissingCategories;
  }

  lemma FinalClaims(cfg: Config, db: Db, job: Job, ports: Ports, ans: Answers, now: int, k: ClaimKey)
    requires cfg.Lawful()
    requires !FinalizeCall(cfg, db, job.userId, job.runId, ports, ans, now).raised
    ensures var o := FinalizeCall(cfg, db, job.userId, job.runId, ports, ans, now);
            && (Claimed(db, k) ==> Claimed(o.db, k))
            && ((!Claimed(db, k) && Claimed(o.db, k)) <==>
                  (exists m :: m in o.sent && KeyOf(m) == Some(k)) || BuiltAtEnd(cfg, db, job, ports, ans, k))
  {
    hide FinalizeCall, ProgressSnapshot, Counted, OtherKeysKept, HasFatal, CostCents, BuiltHere;
    FinalizeIgnores(cfg, db, job.userId, job.runId, ports, ans, now);
    if job.runId.Some? && Live(db, job.userId, job.runId.value) {
      ClaimsAreSends(cfg, db, job.userId, job.runId.value, ports, ans, now, k);
      FinalizeEffect(cfg, db, job.userId, job.runId.value, ports, ans, now);
    }
  }

  lemma BeforeClaims(env: Env, stage: Stage, db: Db, job: Job, now: int, k: ClaimKey)
    requires ProgressOf(env, stage, db, job, now).Reaches?
    ensures var p := ProgressOf(env, stage, db, job, now);
            && (Claimed(p.worked, k) ==> Claimed(p.db, k))
            && ((!Claimed(p.worked, k) && Claimed(p.db, k)) <==> exists m :: m in p.sent && KeyOf(m) == Some(k))
  {
    hide Claimed, SendHygiene;
    var p := ProgressOf(env, stage, db, job, now);
    EmailJobsTakeNoClaim(SummarizeMessages(job.summaryJobs(p.worked)), job.sendFails);
    EmailJobsTakeNoClaim(ClassifyMessages(job.classifyJobs(p.worked)), job.sendFails);
    HygieneTakesItsClaim(p.worked, job, now, k);
  }

  // One record's turn in a batch.
  datatype Turn = Turn(record: Record, ans: Answers, raised: bool, changed: bool)

  function Turns(cfg: Config, env: Env, db: Db, records: seq<Record>, answers: seq<Answers>, now: int): seq<Turn>
    requires |answers| == |records|
  {
    if records == [] then []
    else
      var n := |records| - 1;
      var before := HandleBatch(cfg, env, db, records[..n], answers[..n], now).0;
      var h := HandleRecord(cfg, env, before, records[n], answers[n], now);
      Turns(cfg, env, db, records[..n], answers[..n], now) + [Turn(records[n], answers[n], h.raised, h.db != before)]
  }

  // All turns but those that raised and left the tables alone.
  function WithoutTheLost(turns: seq<Turn>): seq<Turn> {
    if turns == [] then []
    else
      var n := |turns| - 1;
      WithoutTheLost(turns[..n]) + (if turns[n].raised && !turns[n].changed then [] else [turns[n]])
  }

  function RecordsOf(turns: seq<Turn>): seq<Record> {
    seq(|turns|, i requires 0 <= i < |turns| => turns[i].record)
  }

  function AnswersOf(turns: seq<Turn>): seq<Answers> {
    seq(|turns|, i requires 0 <= i < |turns| => turns[i].ans)
  }

  function FailuresOf(turns: seq<Turn>): seq<string> {
    if turns == [] then []
    else
      var n := |turns| - 1;
      FailuresOf(turns[..n]) + (if turns[n].raised then [MessageIdOf(turns[n].record)] else [])
  }

  // The batch the remaining turns make up ends in these tables and is these turns.
  ghost predicate SameBatch(cfg: Config, env: Env, db: Db, turns: seq<Turn>, now: int, end: Db) {
    var b := HandleBatch(cfg, env, db, RecordsOf(turns), AnswersOf(turns), now);
    b.0 == end && b.2 == FailuresOf(turns) && Turns(cfg, env, db, RecordsOf(turns), AnswersOf(turns), now) == turns
  }

  lemma OneMoreTurn(cfg: Config, env: Env, db: Db, turns: seq<Turn>, now: int, end: Db, t: Turn)
    requires SameBatch(cfg, env, db, turns, now, end)
    requires var h := HandleRecord(cfg, env, end, t.record, t.ans, now);
        t.raised == h.raised && t.changed == (h.db != end)
    ensures SameBatch(cfg, env, db, turns + [t], now, HandleRecord(cfg, env, end, t.record, t.ans, now).db)
  {
    hide HandleRecord;
    var more := turns + [t];
    assert RecordsOf(more)[..|turns|] == RecordsOf(turns) && AnswersOf(more)[..|turns|] == AnswersOf(turns);
    assert more[..|turns|] == turns;
  }

  /** Records of a batch are isolated. Leaving out every record that raised and left
      the tables alone, the others meet the same tables, get the same verdicts and
      leave the same end, and the failures listed are theirs. */
  lemma {:induction false} LostRecordsDisturbNothing(cfg: Config, env: Env, db: Db, records: seq<Record>,
      answers: seq<Answers>, now: int)
    requires |answers| == |records|
    ensures SameBatch(cfg, env, db, WithoutTheLost(Turns(cfg, env, db, records, answers, now)), now,
                      HandleBatch(cfg, env, db, records, answers, now).0)
    decreases |records|
  {
    hide HandleRecord, SameBatch;
    if records == [] {
      NoTurns(cfg, env, db, now);
    } else {
      var n := |records| - 1;
      LostRecordsDisturbNothing(cfg, env, db, records[..n], answers[..n], now);
      var front, turns := Turns(cfg, env, db, records[..n], answers[..n], now),
        Turns(cfg, env, db, records, answers, now);
      assert turns[..|turns| - 1] == front;
      var t, end := turns[|turns| - 1], HandleBatch(cfg, env, db, records[..n], answers[..n], now).0;
      OneMoreTurn(cfg, env, db, WithoutTheLost(front), now, end, t);
      assert WithoutTheLost(front) + [] == WithoutTheLost(front);
    }
  }

  lemma NoTurns(cfg: Config, env: Env, db: Db, now: int)
    ensures SameBatch(cfg, env, db, [], now, db)
  {
    assert RecordsOf([]) == [] && AnswersOf([]) == [];
  }
}

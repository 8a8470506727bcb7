/**
 What one queue record does, told by the name its source ends in: which handler it
 reaches, what must be set for it to do anything, which jobs it sends and in what
 order, and which tables it leaves.
 */
module RecordEffects {
  import opened Wrappers
  import opened RunTables
  import opened RunService
  import opened RunFinalizeLaws
  import opened LambdaWorker

  // ------------------------------------------------------------------- routing

  // The source is the bare name, or ends in a dash and the name.
  ghost predicate From(source: Option<string>, name: string) {
    source.Some? && (source.value == name || exists p: string :: source.value == p + "-" + name)
  }

  lemma {:induction false} TailAfterDash(p: string, name: string)
    requires '-' !in name
    ensures TailSegment(name) == name && TailSegment(p + "-" + name) == name
    decreases |p|
  {
    var s := p + "-" + name;
    if p == "" {
      assert s[0] == '-' && s[1..] == name;
    } else {
      assert s[1..] == p[1..] + "-" + name && s[|p|] == '-';
      TailAfterDash(p[1..], name);
    }
  }

  lemma {:induction false} TailIsLast(s: string)
    ensures '-' !in TailSegment(s)
    ensures s == TailSegment(s) || exists p: string :: s == p + "-" + TailSegment(s)
  {
    if '-' in s {
      var t := TailSegment(s[1..]);
      TailIsLast(s[1..]);
      if s[1..] == t {
        assert s[0] == '-';
        assert s == "" + "-" + t;
      } else {
        var p: string :| s[1..] == p + "-" + t;
        assert s == ([s[0]] + p) + "-" + t;
      }
    }
  }

  lemma SourceTail(source: Option<string>, name: string)
    requires '-' !in name && name != "<unknown>"
    ensures From(source, name) <==> TailSegment(if source.Some? then source.value else "<unknown>") == name
  {
    hide TailSegment;
    var s := if source.Some? then source.value else "<unknown>";
    TailIsLast(s);
    TailAfterDash("", name);
    TailAfterDash("", "<unknown>");
    if p: string :| s == p + "-" + name { TailAfterDash(p, name); }
  }

  lemma StageIsName(source: Option<string>)
    ensures From(source, "ingest") <==> StageOf(source).IngestStage?
    ensures From(source, "classify") <==> StageOf(source).ClassifyStage?
    ensures From(source, "summarize") <==> StageOf(source).SummarizeStage?
    ensures From(source, "unsubscribe") <==> StageOf(source).UnsubscribeStage?
  {
    hide TailSegment, From;
    SourceTail(source, "ingest");
    SourceTail(source, "classify");
    SourceTail(source, "summarize");
    SourceTail(source, "unsubscribe");
  }

  ghost predicate Known(source: Option<string>) {
    From(source, "ingest") || From(source, "classify") || From(source, "summarize") || From(source, "unsubscribe")
  }

  // Both senders exist with the summarize queue; only a summarize record without it
  // builds digests inline.
  ghost function Senders(env: Env, source: Option<string>, j: Job): Ports {
    Ports(env.summarizeQueue,
          if From(source, "summarize") && !env.summarizeQueue then Some(j.digestBuilder) else None,
          env.summarizeQueue, j.sendFails)
  }

  /** A record reaches the handler its source names, with that handler's senders. One
      that names none is acknowledged and does nothing; one that does not parse
      raises and does nothing. */
  lemma RecordIsRouted(cfg: Config, env: Env, db: Db, record: Record, ans: Answers, now: int)
    ensures var h := HandleRecord(cfg, env, db, record, ans, now);
            if !Known(record.source) then h == Handled(db, [], false)
            else if record.job.None? then h == Handled(db, [], true)
            else
              var j := record.job.value;
              var ports := Senders(env, record.source, j);
              && (From(record.source, "ingest")
                  ==> h == Conclusion(cfg, IngestProgress(env, db, j), j, ports, ans, now))
              && (From(record.source, "classify") ==>
                    h == Conclusion(cfg, ClassifyProgress(env, db, j, now), j, ports, ans, now))
              && (From(record.source, "summarize") ==>
                    h == Conclusion(cfg, SummarizeProgress(env, db, j), j, ports, ans, now))
              && (From(record.source, "unsubscribe") ==>
                    h == Conclusion(cfg, UnsubscribeProgress(env, db, j), j, ports, ans, now))
  {
    hide From, StageOf, Conclusion, IngestProgress, ClassifyProgress, SummarizeProgress, UnsubscribeProgress;
    StageIsName(record.source);
  }

  // ---------------------------------------------------- before anything is done

  // What the handlers ask of their environment.
  ghost predicate Ready(env: Env, source: Option<string>, j: Job) {
    env.contentKey && (From(source, "ingest") ==> env.tokenKey && (j.storeRawMime ==> env.rawBucket))
  }

  // A category job whose run no longer exists.
  ghost predicate RunGone(db: Db, source: Option<string>, j: Job) {
    From(source, "summarize") && j.categoryJob && (j.runId.None? || j.runId.value !in db.runs)
  }

  // The stage handler meets the tables with its run no longer queued.
  function RowWork(db: Db, j: Job): Option<Db> {
    j.work(if j.runId.Some? && j.runId.value in db.runs && db.runs[j.runId.value].status == Queued
           then db.(runs := db.runs[j.runId.value := db.runs[j.runId.value].(status := Running)])
           else db)
  }

  lemma WorkedIsRowWork(db: Db, j: Job)
    ensures Worked(db, j) == RowWork(db, j)
  {
  }

  ghost predicate Works(env: Env, db: Db, record: Record) {
    && Known(record.source) && record.job.Some? && Ready(env, record.source, record.job.value)
    && !RunGone(db, record.source, record.job.value) && RowWork(db, record.job.value).Some?
  }

  /** Without its environment, or when its row work raises, a record of a known source
      raises, changes nothing and sends nothing; a category job whose run is gone does
      nothing and is acknowledged. */
  lemma NothingWithoutWork(cfg: Config, env: Env, db: Db, record: Record, ans: Answers, now: int)
    requires Known(record.source) && record.job.Some? && !Works(env, db, record)
    ensures var j := record.job.value;
            HandleRecord(cfg, env, db, record, ans, now) ==
            Handled(db, [], !(Ready(env, record.source, j) && RunGone(db, record.source, j)))
  {
    var j := record.job.value;
    WorkedIsRowWork(db, j);
    RecordIsRouted(cfg, env, db, record, ans, now);
    OneName(record.source);
    hide From, Worked, RowWork, HandleRecord, FinalizeCall;
  }

  lemma OneName(source: Option<string>)
    ensures From(source, "ingest") ==> !From(source, "classify") && !From(source, "summarize")
    ensures From(source, "ingest") || From(source, "classify") || From(source, "summarize") ==>
              !From(source, "unsubscribe")
    ensures From(source, "classify") ==> !From(source, "summarize")
  {
    hide From;
    StageIsName(source);
  }

  // --------------------------------------------------------------- email jobs

  predicate IsEmailJob(m: Message) { m.ClassifyMessage? || m.SummarizeMessage? }

  function EmailJobs(sent: seq<Message>): seq<Message> {
    if sent == [] then []
    else (if IsEmailJob(sent[0]) then [sent[0]] else []) + EmailJobs(sent[1..])
  }

  // The jobs a record owes once its row work has left the tables w.
  ghost function Owed(env: Env, source: Option<string>, j: Job, w: Db): seq<Message> {
    (if From(source, "ingest") && env.classifyQueue && (j.runId.Some? || j.newMail)
     then seq(|j.classifyJobs(w)|, i requires 0 <= i < |j.classifyJobs(w)| => ClassifyMessage(j.classifyJobs(w)[i]))
     else [])
    + (if (From(source, "ingest") || From(source, "classify")) && env.summarizeQueue
       then seq(|j.summaryJobs(w)|, i requires 0 <= i < |j.summaryJobs(w)| => SummarizeMessage(j.summaryJobs(w)[i]))
       else [])
  }

  // The first of the jobs, up to one whose send fails.
  ghost predicate SentUpTo(sent: seq<Message>, jobs: seq<Message>, fails: Message -> bool, stopped: bool) {
    && sent <= jobs && (forall m | m in sent :: !fails(m))
    && (if stopped then |sent| < |jobs| && fails(jobs[|sent|]) else sent == jobs)
  }

  lemma {:induction false} SendsUpTo(jobs: seq<Message>, fails: Message -> bool)
    ensures SentUpTo(SendEach(jobs, fails).0, jobs, fails, SendEach(jobs, fails).1)
  {
    if jobs != [] { SendsUpTo(jobs[1..], fails); }
  }

  lemma {:induction false} EmailJobsJoin(a: seq<Message>, b: seq<Message>)
    ensures EmailJobs(a + b) == EmailJobs(a) + EmailJobs(b)
  {
    hide IsEmailJob;
    if a == [] {
      assert a + b == b;
    } else {
      var first, rest := if IsEmailJob(a[0]) then [a[0]] else [], a[1..];
      assert (a + b)[1..] == rest + b && (a + b)[0] == a[0];
      EmailJobsJoin(rest, b);
      assert EmailJobs(a + b) == first + EmailJobs(rest + b);
    }
  }

  lemma {:induction false} AllEmailJobs(ms: seq<Message>)
    ensures (forall m | m in ms :: IsEmailJob(m)) ==> EmailJobs(ms) == ms
    ensures (forall m | m in ms :: !IsEmailJob(m)) ==> EmailJobs(ms) == []
  {
    if ms != [] {
      AllEmailJobs(ms[1..]);
      assert ms == [ms[0]] + ms[1..];
    }
  }

  lemma FinalizeSendsNoEmailJob(cfg: Config, db: Db, u: Uuid, r: Option<Uuid>, ports: Ports, ans: Answers, now: int)
    requires cfg.Lawful()
    ensures var sent := FinalizeCall(cfg, db, u, r, ports, ans, now).sent;
            EmailJobs(sent) == [] && forall m | m in sent :: !m.HygieneMessage?
  {
    hide FinalizeCall, ProgressSnapshot, MissingCategories, WantsCluster, WantsDigests;
    FinalizeIgnores(cfg, db, u, r, ports, ans, now);
    var sent := FinalizeCall(cfg, db, u, r, ports, ans, now).sent;
    if r.Some? && Live(db, u, r.value) {
      MessagesSentFor(cfg, db, u, r.value, ports, ans, now);
    }
    AllEmailJobs(sent);
  }

  lemma SentThen(a: seq<Message>, x: seq<Message>, b: seq<Message>, y: seq<Message>, fails: Message -> bool,
      stopped: bool)
    requires SentUpTo(a, x, fails, false) && SentUpTo(b, y, fails, stopped)
    ensures SentUpTo(a + b, x + y, fails, stopped)
  {
  }

  lemma StoppedBefore(a: seq<Message>, x: seq<Message>, y: seq<Message>, fails: Message -> bool)
    requires SentUpTo(a, x, fails, true)
    ensures SentUpTo(a, x + y, fails, true)
  {
  }

  lemma NoneSent(fails: Message -> bool)
    ensures SentUpTo([], [], fails, false)
  {
  }

  // Two sends, the second only if the first goes through.
  ghost function Both(first: (seq<Message>, bool), second: (seq<Message>, bool)): (seq<Message>, bool) {
    if first.1 then first else (first.0 + second.0, second.1)
  }

  lemma BothSend(first: (seq<Message>, bool), x: seq<Message>, second: (seq<Message>, bool), y: seq<Message>,
      fails: Message -> bool)
    requires SentUpTo(first.0, x, fails, first.1) && SentUpTo(second.0, y, fails, second.1)
    ensures SentUpTo(Both(first, second).0, x + y, fails, Both(first, second).1)
  {
    hide SentUpTo;
    if first.1 { StoppedBefore(first.0, x, y, fails); } else { SentThen(first.0, x, second.0, y, fails, second.1); }
  }

  ghost function FirstJobs(env: Env, source: Option<string>, j: Job, w: Db): seq<Message> {
    if From(source, "ingest") && env.classifyQueue && (j.runId.Some? || j.newMail)
    then ClassifyMessages(j.classifyJobs(w)) else []
  }

  ghost function SecondJobs(env: Env, source: Option<string>, j: Job, w: Db): seq<Message> {
    if (From(source, "ingest") || From(source, "classify")) && env.summarizeQueue
    then SummarizeMessages(j.summaryJobs(w)) else []
  }

  lemma NothingToSend(fails: Message -> bool)
    ensures SendEach([], fails) == ([], false)
  {
  }

  // What a record has sent and where it stands when its email jobs have gone out.
  lemma EmailsGoFirst(env: Env, db: Db, record: Record, now: int) returns (emails: seq<Message>, stopped: bool)
    requires Works(env, db, record)
    ensures var j := record.job.value;
            var w := RowWork(db, j).value;
            var jobs := Owed(env, record.source, j, w);
            var p := ProgressOf(env, StageOf(record.source), db, j, now);
            && SentUpTo(emails, jobs, j.sendFails, stopped)
            && (stopped ==> p == Stops(Handled(w, emails, true)))
            && (!stopped ==> p == AfterEmails(env, record.source, db, j, w, emails, now))
  {
    var j := record.job.value;
    var w, fails := RowWork(db, j).value, j.sendFails;
    var x, y := FirstJobs(env, record.source, j, w), SecondJobs(env, record.source, j, w);
    var sent := Both(SendEach(x, fails), SendEach(y, fails));
    emails, stopped := sent.0, sent.1;
    SendsUpTo(x, fails);
    SendsUpTo(y, fails);
    BothSend(SendEach(x, fails), x, SendEach(y, fails), y, fails);
    assert Owed(env, record.source, j, w) == x + y;
    EmailsOfStage(env, db, record, now);
  }

  lemma EmailsOfStage(env: Env, db: Db, record: Record, now: int)
    requires Works(env, db, record)
    ensures var j := record.job.value;
            var w := RowWork(db, j).value;
            var sent := Both(SendEach(FirstJobs(env, record.source, j, w), j.sendFails),
                             SendEach(SecondJobs(env, record.source, j, w), j.sendFails));
            ProgressOf(env, StageOf(record.source), db, j, now) ==
            if sent.1 then Stops(Handled(w, sent.0, true))
            else AfterEmails(env, record.source, db, j, w, sent.0, now)
  {
    var j := record.job.value;
    WorkedIsRowWork(db, j);
    StageIsName(record.source);
    OneName(record.source);
    NothingToSend(j.sendFails);
    hide From, Worked, RowWork, StageOf, SendEach, SendHygiene, ClassifyMessages, SummarizeMessages;
    assert forall a: seq<Message> :: a + [] == a && [] + a == a;
  }

  // The rest of the record's transaction: a hygiene claim of the classify stage, and
  // the finalize call.
  ghost function AfterEmails(env: Env, source: Option<string>, db: Db, j: Job, w: Db, emails: seq<Message>, now: int)
    : Progress
  {
    var h := if From(source, "classify") && env.unsubscribeQueue then SendHygiene(w, j, now)
      else Dispatch(w, [], false, false);
    if h.raised then Stops(Handled(w, emails + h.sent, true))
    else Reaches(if From(source, "unsubscribe") then db else w, w, h.db, emails + h.sent)
  }

  lemma RecordIsProgress(cfg: Config, env: Env, db: Db, record: Record, ans: Answers, now: int)
    requires Known(record.source) && record.job.Some?
    ensures var j := record.job.value;
            HandleRecord(cfg, env, db, record, ans, now) ==
            Conclusion(cfg, ProgressOf(env, StageOf(record.source), db, j, now), j, Senders(env, record.source, j),
                       ans, now)
  {
    hide From, StageOf, Conclusion, ProgressOf;
    StageIsName(record.source);
  }

  // A hygiene message is due for the record.
  ghost predicate HygieneDue(env: Env, source: Option<string>, j: Job, w: Db) {
    && From(source, "classify") && env.unsubscribeQueue
    && (j.runId.Some? ==> j.runId.value in w.runs && (j.runId.value, j.accountId) !in w.hygieneClaims)
  }

  lemma HygieneWhenDue(env: Env, source: Option<string>, j: Job, w: Db, now: int)
    requires From(source, "classify") && env.unsubscribeQueue
    ensures var h, m := SendHygiene(w, j, now), HygieneMessage(j.userId, j.accountId, j.runId);
            && (h.raised <==> HygieneDue(env, source, j, w) && j.sendFails(m))
            && h.sent == (if HygieneDue(env, source, j, w) && !j.sendFails(m) then [m] else [])
            && h.db == if HygieneDue(env, source, j, w) && j.runId.Some?
                       then w.(hygieneClaims := w.hygieneClaims + {(j.runId.value, j.accountId)}) else w
  {
  }

  // The tables the finalize call starts from.
  ghost function Start(env: Env, source: Option<string>, j: Job, w: Db): Db {
    if HygieneDue(env, source, j, w) && j.runId.Some?
    then w.(hygieneClaims := w.hygieneClaims + {(j.runId.value, j.accountId)}) else w
  }

  /** Everything a record does once its row work is done. It sends the email jobs it
      owes, in order, up to one whose send fails. Then a classify record sends the
      hygiene message that is due, claimed in the same transaction. Then the run is
      finalized on these tables. It raises exactly when one of the sends or the
      finalize call does; what is left then is the row work, and in the unsubscribe
      stage nothing. */
  lemma RecordEffect(cfg: Config, env: Env, db: Db, record: Record, ans: Answers, now: int)
      returns (emails: seq<Message>, hygiene: seq<Message>, stopped: bool)
    requires cfg.Lawful() && Works(env, db, record)
    ensures var j := record.job.value;
            var w := RowWork(db, j).value;
            var h := HandleRecord(cfg, env, db, record, ans, now);
            var m := HygieneMessage(j.userId, j.accountId, j.runId);
            var due := !stopped && HygieneDue(env, record.source, j, w);
            var o := FinalizeCall(cfg, Start(env, record.source, j, w), j.userId, j.runId,
                                  Senders(env, record.source, j), ans, now);
            var called := !stopped && !(due && j.sendFails(m));
            && SentUpTo(emails, Owed(env, record.source, j, w), j.sendFails, stopped)
            && hygiene == (if due && !j.sendFails(m) then [m] else [])
            && h.sent == emails + hygiene + (if called then o.sent else [])
            && (h.raised <==> !called || o.raised)
            && h.db == if !h.raised then o.db else if From(record.source, "unsubscribe") then db else w
  {
    var j := record.job.value;
    var w := RowWork(db, j).value;
    hide *;
    emails, stopped := HandledAfterEmails(cfg, env, db, record, ans, now);
    var m := HygieneMessage(j.userId, j.accountId, j.runId);
    hygiene := if !stopped && HygieneDue(env, record.source, j, w) && !j.sendFails(m) then [m] else [];
    var ports := Senders(env, record.source, j);
    if stopped {
      assert emails + [] + [] == emails;
    } else {
      EndOfRecord(cfg, env, record.source, db, j, w, emails, ports, ans, now);
    }
  }

  /** The email jobs among what a record sends: all it owes, in order, if it does not
      raise, and otherwise the first of them. */
  lemma EmailJobsOfRecord(cfg: Config, env: Env, db: Db, record: Record, ans: Answers, now: int)
    requires cfg.Lawful() && Works(env, db, record)
    ensures var j := record.job.value;
            var h := HandleRecord(cfg, env, db, record, ans, now);
            var owed := Owed(env, record.source, j, RowWork(db, j).value);
            && EmailJobs(h.sent) <= owed && (forall m | m in EmailJobs(h.sent) :: !j.sendFails(m))
            && (!h.raised ==> EmailJobs(h.sent) == owed)
            && (EmailJobs(h.sent) != owed ==> j.sendFails(owed[|EmailJobs(h.sent)|]))
  {
    assert record.job.Some? && RowWork(db, record.job.value).Some?;
    hide From, RowWork, FinalizeCall, Works, HandleRecord, Owed, HygieneDue, EmailJobs, AfterEmails, Start, Senders,
        Conclusion;
    var j := record.job.value;
    var w := RowWork(db, j).value;
    var emails, hygiene, stopped := RecordEffect(cfg, env, db, record, ans, now);
    var ports := Senders(env, record.source, j);
    var o := FinalizeCall(cfg, Start(env, record.source, j, w), j.userId, j.runId, ports, ans, now);
    FinalizeSendsNoEmailJob(cfg, Start(env, record.source, j, w), j.userId, j.runId, ports, ans, now);
    EmailsAreEmails(env, record.source, j, w, emails, stopped, hygiene, o.sent);
    assert emails + hygiene + [] == emails + hygiene;
  }

  lemma HandledAfterEmails(cfg: Config, env: Env, db: Db, record: Record, ans: Answers, now: int)
      returns (emails: seq<Message>, stopped: bool)
    requires Works(env, db, record)
    ensures record.job.Some? && RowWork(db, record.job.value).Some?
    ensures var j := record.job.value;
            var w := RowWork(db, j).value;
            && SentUpTo(emails, Owed(env, record.source, j, w), j.sendFails, stopped)
            && HandleRecord(cfg, env, db, record, ans, now) ==
               (if stopped then Handled(w, emails, true)
                else Conclusion(cfg, AfterEmails(env, record.source, db, j, w, emails, now), j,
                                Senders(env, record.source, j), ans, now))
            && (stopped ==> !From(record.source, "unsubscribe"))
  {
    hide From, RowWork, StageOf, FinalizeCall, ProgressOf, HandleRecord, Owed, SentUpTo, AfterEmails, Senders;
    emails, stopped := EmailsGoFirst(env, db, record, now);
    KnownIfWorks(env, db, record);
    RecordIsProgress(cfg, env, db, record, ans, now);
    NothingOwed(emails, record.job.value.sendFails);
  }

  // The rest of the record, when its email jobs have gone out.
  lemma EndOfRecord(cfg: Config, env: Env, source: Option<string>, db: Db, j: Job, w: Db, emails: seq<Message>,
      ports: Ports, ans: Answers, now: int)
    ensures var m := HygieneMessage(j.userId, j.accountId, j.runId);
            var due := HygieneDue(env, source, j, w);
            var hygiene := if due && !j.sendFails(m) then [m] else [];
            var o := FinalizeCall(cfg, Start(env, source, j, w), j.userId, j.runId, ports, ans, now);
            var h := Conclusion(cfg, AfterEmails(env, source, db, j, w, emails, now), j, ports, ans, now);
            var called := !(due && j.sendFails(m));
            && h.sent == emails + hygiene + (if called then o.sent else [])
            && (h.raised <==> !called || o.raised)
            && h.db == if !h.raised then o.db else if From(source, "unsubscribe") then db else w
  {
    hide From, FinalizeCall, SendHygiene, HygieneDue;
    OneName(source);
    if From(source, "classify") && env.unsubscribeQueue {
      HygieneWhenDue(env, source, j, w, now);
    } else {
      NoHygiene(env, source, j, w);
    }
    assert emails + [] == emails && emails + [] + [] == emails;
  }

  lemma NoHygiene(env: Env, source: Option<string>, j: Job, w: Db)
    requires !(From(source, "classify") && env.unsubscribeQueue)
    ensures !HygieneDue(env, source, j, w)
  {
  }

  lemma NothingOwed(emails: seq<Message>, fails: Message -> bool)
    ensures !SentUpTo(emails, [], fails, true)
  {
  }

  lemma EmailsAreEmails(env: Env, source: Option<string>, j: Job, w: Db, emails: seq<Message>, stopped: bool,
      hygiene: seq<Message>, last: seq<Message>)
    requires SentUpTo(emails, Owed(env, source, j, w), j.sendFails, stopped)
    requires (forall m | m in hygiene :: m.HygieneMessage?) && EmailJobs(last) == []
    ensures EmailJobs(emails) == EmailJobs(emails + hygiene) == EmailJobs(emails + hygiene + last) == emails
  {
    hide Owed, EmailJobs;
    OwedAreEmailJobs(env, source, j, w, emails);
    AllEmailJobs(emails);
    AllEmailJobs(hygiene);
    EmailJobsJoin(emails, hygiene);
    EmailJobsJoin(emails + hygiene, last);
  }

  lemma KnownIfWorks(env: Env, db: Db, record: Record)
    requires Works(env, db, record)
    ensures Known(record.source) && record.job.Some?
    ensures From(record.source, "unsubscribe") ==>
              Owed(env, record.source, record.job.value, RowWork(db, record.job.value).value) == []
  {
    hide From;
    OneName(record.source);
  }

  lemma OwedAreEmailJobs(env: Env, source: Option<string>, j: Job, w: Db, emails: seq<Message>)
    requires emails <= Owed(env, source, j, w)
    ensures forall m | m in emails :: IsEmailJob(m)
  {
    hide From;
    var jobs := Owed(env, source, j, w);
    forall i | 0 <= i < |emails| ensures IsEmailJob(emails[i]) { assert emails[i] == jobs[i]; }
  }

  // ----------------------------------------------------------------- the batch

  /** A batch is its records one after the other, each on the tables the one before
      left, their messages in that order, and the ids of those that raised. */
  lemma BatchInOrder(cfg: Config, env: Env, db: Db, records: seq<Record>, answers: seq<Answers>, last: Record,
      ans: Answers, now: int)
    requires |answers| == |records|
    ensures HandleBatch(cfg, env, db, [], [], now) == (db, [], [])
    ensures var before := HandleBatch(cfg, env, db, records, answers, now);
            var h := HandleRecord(cfg, env, before.0, last, ans, now);
            var id := if last.messageId.None? then "<no-id>" else last.messageId.value;
            HandleBatch(cfg, env, db, records + [last], answers + [ans], now) ==
            (h.db, before.1 + h.sent, before.2 + (if h.raised then [id] else []))
  {
    hide HandleRecord;
    assert (records + [last])[..|records|] == records && (answers + [ans])[..|answers|] == answers;
  }
}

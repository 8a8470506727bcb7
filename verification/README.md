# Briefed: a verified model of the daily email pipeline

Briefed turns a user's unread mail into a daily digest. A scheduled tick or a
manual trigger starts a *run*; queue workers ingest, classify and summarize its
mail, and every worker ends by trying to finalize the run. This project models
the parts of that system whose correctness depends on more than one function, and
proves what they promise.

- **The run lifecycle** (`RunTables`, `RunTerms`, `RunMeasure`, `RunService`,
  `RunFinalizeLaws`, `RunDispatchLaws`, `RunVerdicts`, `RunLifecycle`, `RunLiveness`,
  `RunStranding`, `StageJobs`, `StaleSession`, `LambdaWorker`, `RecordEffects`,
  `LostWork`, `ClaimProtocol`). The tables are sets and maps.
  `Session` is the transaction that stamps membership, takes one-shot claims,
  dispatches cluster and category jobs and finalizes a run; `Worker` is the handler
  order around it and the batch loop. Each method is proved equal to a function of
  the old tables, and the laws are about those functions: what one finalize call
  leaves in every table, what every run of committed steps keeps, why each message
  was sent, that a run ends when its mail work is done and its messages are handled,
  exactly which steps free a run that waits, and, over interleaved transactions
  with rollbacks and stale rewrites, that each claim is committed once.
- **The schedule** (`Scheduling`, `SlotText`, `RunLock`). Slot parsing, the three-day
  candidate search, the due test, the preview of the next run, and the lock those starts set
  and finished runs release.
- **The LLM client** (`Reliability`, `LlmClient`, `LlmClientLaws`, `LlmAttempts`,
  `LlmClientHistories`, `LlmCoolDown`, `PromptTemplate`). Breaker, daily cap, budget
  guard, retry loop, fallback chain and log rows over a mutable object graph; what
  sequences of calls keep; and prompt rendering, one name at a time in any set order.
- **The offline queue** (`OfflineQueue`, `OfflineQueueLaws`, `OfflineReplays`). The
  durable mutation table, the replay loop with edits interleaved at every request,
  the hook that allows one drain at a time, and, in finer steps, replays that overlap.
- **The manual-run limiter** (`RateLimiter`).
- **Two byte formats**: the encryption envelope (`Envelope`) and the signed session
  cookie (`SessionCookie`).

`Wrappers`, `Octets` and `PromptLog` hold the types these modules share.

What the functions compute is also stated without them: `RunTerms` and `RunVerdicts`
say mail by mail and row by row what a run owes, when a call ends it and what it sends;
`RecordEffects` says by the name its source ends in what a queue record does; and the
instants, delays, texts and byte layouts of the other parts are given as numbers and
characters.

Identifiers are natural numbers. Instants are integer microseconds in `Scheduling`
and `RunLock`, and reals in the LLM client and the limiter. Whatever lies outside
the modelled code is a parameter with stated laws: provider replies, clocks, jitter,
zone offsets, server replies, edits made while a request is in flight, JSON, HMAC,
KMS, AES-GCM, the order in which a database or a set lists its elements.

## Where the code and its own words differ

The model follows the code. Each difference is stated by the lemmas named
with it, which the table below lists.

- A run is promised not to be stranded by a failing call. A cluster job whose groups
  are all below the minimum size writes neither a summary nor an error row, while the
  run's single cluster claim is spent (`EmptyClusterJobStrandsRun`;
  backend/app/services/summarization/tech_news.py:200-204). No message asks for the
  cluster again and no finalize call ends the run until some step frees the cluster:
  another summary or failure row, or one of exactly two newsletters being read,
  classified otherwise, or ingested again out of the unread scope (`FreedExactly`,
  `OwedRunGoesOn`).
- A second way needs no newsletter. A summary call that the budget guard refuses
  raises before any row is logged (backend/app/llm/client.py:432-433), and the handler
  acknowledges the record (backend/app/services/summarization/relevant.py:180-196): the
  mail keeps neither a summary nor a fatal row (`SummaryJobSettles`,
  `RefusedSummaryStrandsRun`). With a client built for each record this happens
  exactly when the cap is not above zero (`FreshClientSettles`).
- A finalize call reads the run row as its session holds it. One that read the row
  before another call ended the run ends it again and moves its finish time
  (`EndedRunEndsAgain`, `FinishTimeMoves`).
- The finalize call is documented as coming after the worker has committed its row
  work; the unsubscribe handler commits only afterwards, so a send that raises loses
  its row work too (`UnsubscribeLosesItsWork`). It is the only stage that does
  (`RaisedKeepsRowWorkOnly`).
- A manual start replaces the lock without asking the schedule, so one that fails
  lets a second scheduled run start while the first has not ended, for every profile
  with a slot (`ManualStartReopensSlot`). `release_user_lock` in the fan-out handler has no
  caller; `_clear_user_lock` is the only release in use.
- The half-open state is documented as one probe. The breaker is asked once per
  provider entry, so a half-open entry is one probe exactly when no retry is allowed
  or the probe is not refused in a retryable way (`HalfOpenProbesOnce`).
  `max_retries = 3` allows four attempts where the module header says three: more than
  n are made exactly when n retries are allowed and the first n replies are retryable
  refusals (`MoreAttempts`, `HalfOpenMakesFour`).
- `record_failure` is documented as returning true when a half-open breaker opens
  again; it renews `opened_at` and returns false (`TripsOncePerRun`).
- A payload that misses its schema records a success and then a failure, so repeated
  mismatches never add up to an open breaker of the default threshold
  (`MismatchLeavesRunOfOne`).
- `Retry-After` truncates, so a client that waits exactly that long is refused again
  unless less than a second was left (`RetryAfterFrees`).
- A limiter of capacity zero does not answer 429: it indexes an empty list
  (`ZeroCapacityFails`).
- The placeholder pattern accepts `{{ name }}` with spaces, but the replacement only
  looks for `{{name}}`: the variable is demanded and the text is left as it was. Every
  placeholder is filled exactly when none of them is spaced (`SpacedPlaceholdersStay`).
- The rendered text depends on the order in which a set is walked, exactly when the
  value of some token brings in the token of another name that was found
  (`OrdersAgreeIffNothingBroughtIn`, `TokenInValueDependsOnOrder`). Values that hold
  their own name's token are the one exception: two of them can bring in each other
  and still agree (`SelfTokensCanAgree`).
- The queue is documented as first in, first out. It is so for two mutations exactly
  when the index puts the earlier one first, by creation time and then by random id: a
  clock that goes back, or two rows of one millisecond, let the later one overtake
  (`FirstInFirstOutIffAhead`).
- The sync button of the queued-actions sheet does not take the drain lock, so two
  replays can be in flight. A replay may start exactly when no row that is listed with
  attempts left is in the hands of another (`StartIsSafeIffUnexposed`); otherwise that
  row can be accepted twice, whichever row of whichever table it is
  (`OverlappingReplaysSendTwice`).
- `verify_cookie` documents one error for malformed cookies; base64 and ASCII errors
  leave it unconverted, exactly for the segments that do not decode by their characters
  (`UndocumentedErrors`, `DecodesIffDecodable`).

## Model

| member | source | states |
|---|---|---|
| RunTerms.CountersMean | backend/app/services/runs.py:509-621 | What each pending counter says of the tables, with labels, prompt names and statuses spelled out; the total is zero exactly when every due mail is classified and has its summary, or a failed call in its place, if it is must-read, good-to-read or a newsletter, no cluster is owed and no digest is missing |
| RunTerms.CountMeans | backend/app/services/runs.py:420-507 | The four progress counts are the numbers of member mails, classified, must-read and summarized ones, and cluster summaries |
| RunTerms.CostMeans | backend/app/services/runs.py:902-912 | The cost is the sum over the run's log rows, to the nearest cent, a half up |
| RunTables.ClassifiedWithinIngested | backend/app/services/runs.py:420-454 | Classified plus pending-unclassified never exceeds ingested, with equality exactly when every unclassified member in scope is unread |
| RunMeasure.ProductiveLowers | backend/app/services/runs.py:102-110 | Each productive step (classify, summarize, fatal error on a pending summary, cluster row or failure, category row) strictly lowers 4·unclassified + 2·summaries + clusters + categories |
| RunMeasure.ClassifyLowers | backend/app/services/runs.py:530-568 | Classifying one pending mail lowers the measure although it may add a summary, make a cluster pending and fill a category |
| RunMeasure.MarkReadRaisesNothing | backend/app/services/runs.py:509-621 | Reading a mail raises none of the four counters and makes no category missing |
| RunMeasure.HarmlessRaisesNothing | backend/app/services/runs.py:509-621 | Row work for other mail, repeated summaries, any log row or digest and new cluster rows never raise any of the four counters |
| RunMeasure.MeasureZero | backend/app/services/runs.py:102-110 | The measure is zero exactly when the snapshot waits for nothing |
| RunMeasure.WorkRemains | backend/app/services/runs.py:297-312 | While the snapshot waits for something, a productive step exists |
| RunMeasure.DigestCallsRaiseNothing | backend/app/services/runs.py:51 | New digest rows and category-digest log rows raise no counter and leave mail and cluster work as it was |
| RunMeasure.NoneRisesMeasure | backend/app/services/runs.py:102-110 | When no counter rises the measure does not, and it stays the same only if all four do |
| RunService.Session.StampRunMembership | backend/app/services/runs.py:113-156 | Membership gains exactly the given edges, counting only new ones; a missing run or mail fails and changes nothing |
| RunService.Session.MarkRunRunning | backend/app/services/runs.py:159-172 | Only a queued run becomes running |
| RunService.Session.Claim | backend/app/services/runs.py:688-714 | A claim is won exactly when it is free on an existing run, and then only that claim is taken |
| RunService.Session.MarkUnsubscribeHygieneEnqueued | backend/app/services/runs.py:175-215 | A message without a run always enqueues and claims nothing; otherwise it is the (run, account) claim |
| RunService.Session.NewestNewsletters | backend/app/services/runs.py:624-685 | The ids are distinct newsletters of the run, newest first, exactly min(limit, n) of them, none left out that is newer |
| RunService.Session.DispatchTechNewsCluster | backend/app/services/runs.py:650-685 | A cluster message needs a sender, at least two newsletters and the cluster claim, and carries the newest 500 |
| RunService.Session.DispatchMissingCategorySummaries | backend/app/services/runs.py:781-824 | The loop claims and sends, or builds, each missing category in order and stops at the first send or build that raises |
| RunService.Session.MaybeFinalizeRun | backend/app/services/runs.py:253-315 | The whole call, tables and messages, equals the specified finalize call for some answers a database may give |
| RunVerdicts.CallVerdict | backend/app/services/runs.py:253-315 | A call that is not rolled back ends the run exactly when nothing is owed in the tables it leaves; failed exactly when a call of the run failed whose prompt is neither of the two that do not count; status, finish time, error text, cost, stats and the owner's lock are given row by row, and every other row is as before |
| RunVerdicts.OtherCallsDoNothing | backend/app/services/runs.py:253-258 | Without a run, on someone else's run or on one that has ended, nothing changes and nothing is sent |
| RunVerdicts.CallDispatches | backend/app/services/runs.py:271-286 | The claims gained and the messages sent, in order: the cluster exactly when all due mail is classified and two newsletters wait for it, each digest exactly when mail work is done, an item exists and no digest or claim does |
| RunVerdicts.CallRaises | backend/app/services/runs.py:650-861 | A call that builds nothing itself raises exactly when the message of something due cannot be sent |
| RunVerdicts.BuildLeaves | backend/app/services/runs.py:800-824 | An inline build leaves its claim, the digest row if it was written, and one category-digest log row per provider call; a builder that raises raises the call |
| RunVerdicts.InlineCallEnds | backend/app/services/runs.py:278-286 | A call that builds and writes its digests ends a run that owes nothing else |
| RunVerdicts.ScopeMeans | backend/app/services/runs.py:318-341 | The scope is the one in stats, and without one the owner's accounts that are active and scan automatically, each once |
| RunVerdicts.ScopeFromStats | backend/app/services/runs.py:344-359 | Of the list in stats the strings that are ids count, in order; anything else is skipped |
| RunVerdicts.NewestMeans | backend/app/services/runs.py:650-675 | The newsletters listed are the newest, newest first: all of them, or five hundred |
| RunFinalizeLaws.CategoriesDispatched | backend/app/services/runs.py:781-861 | Messages leave only for distinct, unclaimed, missing categories, and with a queue sender the claims gained are exactly those messages |
| RunFinalizeLaws.EverythingDispatched | backend/app/services/runs.py:271-286 | The dispatch half of a call sends no message twice and none without taking its claim, and touches nothing but claims, digests and log rows |
| RunFinalizeLaws.StatsRoundTrip | backend/app/services/runs.py:344-359 | The account scope written into stats is the scope read back, and keys the payload does not own survive |
| RunFinalizeLaws.ConcludeEffect | backend/app/services/runs.py:288-315 | The last writes record progress and, exactly when nothing is pending, end the run and release its own lock, without moving any counter |
| RunFinalizeLaws.FinalizeEffect | backend/app/services/runs.py:253-315 | On a live owned run a committed call returns true exactly when the tables it leaves wait for nothing; the run is then failed if and only if a fatal prompt error exists, and complete otherwise; its stats and cost are the counts of those tables, keys of its stats that the payload does not own survive, and every other table is framed |
| RunFinalizeLaws.SentIsClaimed | backend/app/services/runs.py:676-685 | After a committed call the claim of every message sent is taken |
| RunDispatchLaws.EverythingDueIsClaimed | backend/app/services/runs.py:271-286 | After a committed call the claims gained are exactly those of the work that was due when it started: every missing category once mail work has drained, the cluster once classification has; without an inline builder it finishes exactly when nothing was pending |
| RunDispatchLaws.ClaimsAreSends | backend/app/services/runs.py:676-685 | A committed call takes a claim exactly when it sends its message, or builds its digest inline |
| RunDispatchLaws.FinishedIffNothingPending | backend/app/services/runs.py:297-312 | Without an inline builder a call ends its run exactly when nothing is pending before it; then it sends nothing and cannot raise |
| RunLifecycle.RunsOnlyMoveForward | backend/app/services/runs.py:159-172 | Over every run of committed steps, status moves queued, running, terminal; a terminal row never changes; claims, a recorded scope and stats keys the payload does not own last |
| RunLifecycle.ScopeIsFrozen | backend/app/services/runs.py:318-359 | Once a committed call used a non-empty scope, every later call on the run uses the same one |
| RunLifecycle.EveryMessageJustified | backend/app/services/runs.py:271-286 | In every reachable state a category message left when all unread members were classified and summarized or fatally failed; a cluster message when classification had drained, with at least two and exactly the newest min(500, n) newsletters |
| RunLifecycle.OneDispatchPerClaim | backend/app/services/runs.py:676-714 | A claim a committed step sent for is never sent for by a later step |
| RunLiveness.ProductiveStepsBounded | backend/app/services/runs.py:102-110 | With its members fixed, a run takes at most as many productive steps as its measure, however finalize calls, claims, reading and other runs' work interleave |
| RunLiveness.DrainedRunEnds | backend/app/services/runs.py:297-312 | On a live run that waits for nothing the next finalize call, inline builders included, ends the run with the verdict of its log, sends nothing and cannot raise |
| RunLiveness.ClaimsKeepMessages | backend/app/services/runs.py:827-861 | With queue senders, every step keeps the cluster and category claims of a run backed by a message in the queue, rolled-back calls included |
| RunLiveness.EveryFairRunEnds | backend/app/services/runs.py:297-312 | In every endless run with fixed members, a recorded scope and queue senders, some finalize call makes the run complete or failed, provided only that mail work is done sooner or later, a message that was sent is handled, and finalize calls whose sends go through recur |
| RunStranding.FreedExactly | backend/app/services/runs.py:509-621 | For a mail that awaits its summary, and for a pending cluster: exactly which step frees it |
| RunStranding.OwedUntilFreed | backend/app/services/runs.py:509-621 | Over every run a row stays owed exactly as long as no step frees it |
| RunStranding.OwedRunGoesOn | backend/app/services/runs.py:271-312 | As long as nothing frees an owed row no finalize call ends the run, and once its cluster is claimed no message asks for it again |
| RunStranding.ClusterOwedIsReached | backend/app/services/runs.py:571-621 | From an empty database a live run is reached that waits for its cluster alone, claimed and sent for |
| RunStranding.SummaryOwedIsReached | backend/app/services/runs.py:541-568 | From an empty database a live run is reached that waits for one summary alone |
| StageJobs.SummaryJobSettles | backend/app/services/summarization/relevant.py:180-196 | A summary job leaves its mail owed exactly when the budget guard refuses its call, and then changes nothing |
| StageJobs.FreshClientSettles | backend/app/llm/factory.py:49-66 | With a client that has spent nothing the job leaves its mail owed exactly when a cap is set that is not above zero |
| StageJobs.CallCosts | backend/app/services/summarization/relevant.py:319-343 | An answered call logs its cost in whole micro-dollars for its run, one whose providers all fail an error row at no cost, a refused one nothing |
| StageJobs.SummaryJobSkips | backend/app/services/summarization/relevant.py:109-168 | A summarized mail is not asked for again, a vanished one is a lookup error, and a job writes nothing but its summary and log row |
| StageJobs.ClusterJobSettles | backend/app/services/summarization/tech_news.py:200-262 | A cluster job leaves the cluster owed exactly when every group is too small or refused by the budget guard at its turn |
| StageJobs.ClusterJobSkips | backend/app/services/summarization/tech_news.py:159-166 | A run that has its cluster summary is left alone |
| StageJobs.EmptyClusterJobStrandsRun | backend/app/services/summarization/tech_news.py:200-204 | In a reached run that waits for its claimed cluster alone, a job that finds only small groups changes nothing |
| StageJobs.RefusedSummaryStrandsRun | backend/app/services/summarization/relevant.py:180-196 | In a reached run that waits for one summary, the job sent for it changes nothing when the budget guard refuses its call |
| StaleSession.FreshCopyIsTheRow | backend/app/lambda_worker.py:466-519 | A committed finalize call on an up-to-date copy of the run row is the call on the row |
| StaleSession.EndedRunEndsAgain | backend/app/lambda_worker.py:466-519 | A run that has ended is ended again, with a new finish time and verdict, exactly when the copy was read before it ended and nothing is pending; a later copy changes nothing, and an unfinished call leaves the status unless its copy was read while the run was queued |
| StaleSession.FinishTimeMoves | backend/app/lambda_worker.py:466-519 | The input that shows it, reached from an empty database: a copy read while the run was running moves the finish time of the ended run |
| ClaimProtocol.ClaimsCommittedOnce | backend/app/services/runs.py:864-882 | Over every interleaving each claim is committed at most once, by a transaction that dispatched it before committing |
| ClaimProtocol.ClaimsNeverErased | backend/app/services/runs.py:688-714 | A committed claim keeps its owner for ever, whatever stale progress rewrites are committed |
| ClaimProtocol.DuplicatesOnlyFromRollbacks | backend/app/lambda_worker.py:397-423 | A transaction sends at most once per claim, and of all senders for a claim at most one is not rolled back |
| ClaimProtocol.ClaimerWaitsForHolderOnly | backend/app/services/runs.py:864-882 | A claimer wins, loses, or waits for exactly one other open transaction, winning if it rolls back and losing if it commits |
| LambdaWorker.Worker.HandleIngestRecord | backend/app/lambda_worker.py:237-325 | Row work is committed, then jobs sent, then the run finalized and committed |
| LambdaWorker.Worker.HandleClassifyRecord | backend/app/lambda_worker.py:328-423 | Row work is committed first; the summary jobs, the hygiene claim with its message and the finalize call share a second transaction |
| LambdaWorker.Worker.HandleSummarizeRecord | backend/app/lambda_worker.py:426-519 | Row work is committed, then the run finalized in a second transaction; a category job whose run is gone is acknowledged and does nothing |
| LambdaWorker.Worker.HandleUnsubscribeRecord | backend/app/lambda_worker.py:522-587 | One transaction holds both the row work and the finalize call |
| LambdaWorker.Worker.SqsDispatcher | backend/app/lambda_worker.py:171-234 | The loop equals the batch function: every record handled in order, failures listed |
| RecordEffects.RecordIsRouted | backend/app/lambda_worker.py:199-234 | A record reaches the handler whose name its source is, or ends in after a dash, with the senders its queues allow; any other source does nothing, and a body that does not parse raises |
| RecordEffects.NothingWithoutWork | backend/app/lambda_worker.py:237-275 | Without the keys a stage asks for, or when its row work raises, a record raises and leaves no trace; a category job of a gone run is acknowledged |
| RecordEffects.RecordEffect | backend/app/lambda_worker.py:237-587 | Everything a record does after its row work: the email jobs in order up to a send that fails, the hygiene message exactly when it is due, the finalize call on those tables, when it raises, and what it leaves |
| RecordEffects.EmailJobsOfRecord | backend/app/lambda_worker.py:280-310 | A record that does not raise has sent exactly its classify jobs, then its summarize jobs; one that raises has sent the first of them |
| RecordEffects.BatchInOrder | backend/app/lambda_worker.py:199-234 | A batch is its records one after the other, each on the tables the one before left, with the ids of those that raised |
| LambdaWorker.RaisedKeepsRowWorkOnly | backend/app/lambda_worker.py:397-423 | A record that raises leaves its row work alone if that was done and the stage is not unsubscribe, and the tables as they were otherwise: never a claim or finalize progress, and work that was done is kept exactly in the stages other than unsubscribe |
| LostWork.DueClusterRaises | backend/app/services/runs.py:650-685 | A finalize call whose cluster job is due raises when no send goes through |
| LostWork.UnsubscribeLosesItsWork | backend/app/lambda_worker.py:522-587 | The input that shows the loss: on a reachable database an unsubscribe record that scored a sender leaves nothing when its finalize call cannot send |
| LambdaWorker.HandledClaimsAreSends | backend/app/lambda_worker.py:397-423 | A record handled to the end commits, beyond its row work, exactly the claims whose messages it sent or whose digests it built; only a summarize worker without the summarize queue builds |
| LambdaWorker.LostRecordsDisturbNothing | backend/app/lambda_worker.py:199-234 | Leaving out the records that raised and left the tables alone, the others meet the same tables, get the same verdicts and leave the same end |
| Scheduling.ParseFormatted | backend/app/core/scheduling.py:81-102 | Every HH:MM of a day parses to its minute |
| SlotText.ParseIntReads | backend/app/core/scheduling.py:81-102 | int() reads blanks, a sign or none, digits with single underscores between them, and blanks, as their decimal value, and nothing else |
| SlotText.ParseSlotReads | backend/app/core/scheduling.py:81-102 | A slot is read exactly when it is an hour from 0 to 23 and a minute from 0 to 59 around its only colon |
| Scheduling.CandidateUtcSlots | backend/app/core/scheduling.py:105-142 | The nested loops list the slots of the local days before, of and after the instant |
| Scheduling.ThreeDaysSuffice | backend/app/core/scheduling.py:105-142 | For every instant and zone, if local times whose instants lie within the window have an offset at most a day less the half window from the one now, testing three local days is testing all days |
| Scheduling.SpreadBoundIsTight | backend/app/core/scheduling.py:105-142 | With one microsecond more of difference a slot within the window can be missed |
| Scheduling.DueMeansSlotNearby | backend/app/core/scheduling.py:145-182 | A user is due exactly when the schedule is on, no run finished within 3600 seconds, no run holds a lock without a start time or with one within 1800 seconds, and a slot of any day is within 450 seconds; an unknown zone is UTC |
| Scheduling.NextSlotUtc | backend/app/core/scheduling.py:185-226 | The minimum of the strictly later slots of three days; none exactly when disabled or no such slot |
| Scheduling.NextIsEarliest | backend/app/core/scheduling.py:185-226 | For every zone in which no wall time of a past day lies ahead and offsets stay within half a day of the present one, the preview is the earliest later slot over all days, and none exactly when no slot parses |
| Scheduling.NextIsDue | backend/app/core/scheduling.py:145-226 | The previewed instant is due exactly when lock and debounce permit then |
| Scheduling.OneTickUnlessHalfway | backend/app/core/scheduling.py:33-42 | Some 15-minute tick is within the window of every slot, and exactly one unless the slot is half-way between two |
| Scheduling.WholeMinuteSlotsHaveOneTick | backend/app/core/scheduling.py:33-42 | With whole-minute offsets each slot has exactly one tick |
| RunLock.EarlierRunFailed | backend/app/core/scheduling.py:164-176 | Two starts under 30 minutes apart, the later scheduled and no manual start between, mean the earlier run ended failed in between |
| RunLock.LatestStartFailed | backend/app/core/scheduling.py:164-176 | Whatever manual starts lie between, before a scheduled start less than 30 minutes after some start the latest start had failed |
| RunLock.ManualStartReopensSlot | backend/app/api/v1/frontend.py:260-280 | Two scheduled starts within 30 minutes, the first run not ended between them, are possible exactly for the profiles whose schedule is on and has a slot, in every zone with a slot away from its date-line changes, and always need a manual start between them |
| RunLock.ReleaseIsClearUserLock | backend/app/services/runs.py:961-975 | The release of the lock histories is what a finalize call does to its owner's row, and it leaves other users alone |
| RunLock.ReplacedRunReleasesNothing | backend/app/services/runs.py:961-975 | A run whose lock was replaced clears neither the newer lock nor moves the finish time |
| Reliability.CircuitBreaker.RecordFailure | backend/app/llm/client.py:196-210 | The counter grows, the opening time is set or renewed from the threshold on, and true is returned only when the breaker was closed |
| Reliability.CircuitBreaker.BeforeCall | backend/app/llm/client.py:175-189 | Refuses exactly while cooling down |
| Reliability.BreakerTracksTrailingRun | backend/app/llm/client.py:175-210 | Over every history the counter is the trailing failure run, and the breaker is open exactly when that run reaches the threshold, since its latest failure |
| Reliability.TripsOncePerRun | backend/app/llm/client.py:196-210 | An opening is reported exactly once per failure run, when it reaches the threshold |
| Reliability.RateCap.Consume | backend/app/llm/client.py:231-246 | Rolls the date, then grants exactly while the day's count is below the maximum |
| Reliability.DailyGrants | backend/app/llm/client.py:231-246 | With non-decreasing dates each day grants its first max_calls requests and no more |
| Reliability.LLMBudgetGuard.CheckBeforeCall | backend/app/llm/client.py:98-121 | Rolls the date and refuses exactly when the day's spend has reached the cap |
| Reliability.GuardedSpend | backend/app/llm/client.py:98-135 | Guarded spend is the summed cost of the successes on the guard's date and never passes the cap by more than one call |
| LlmClient.LLMClient.RetryLoop | backend/app/llm/client.py:573-596 | The loop over breaker, provider and sleeps equals the specified attempts |
| LlmClient.LLMClient.CallOneProvider | backend/app/llm/client.py:542-596 | Breaker asked once, cap consumed once, then the loop |
| LlmClient.LLMClient.ChainLoop | backend/app/llm/client.py:455-506 | The loop over primary and fallbacks equals the specified chain |
| LlmClient.LLMClient.CallModel | backend/app/llm/client.py:384-540 | The whole call equals the specified one: guards, chain, one log row, one recorded cost |
| LlmClientLaws.RetryOutcome | backend/app/llm/client.py:573-596 | All attempts but the last are retryable refusals; the last is the answer, or the refusal that ends the loop |
| LlmClientLaws.SleepsWithinBudget | backend/app/llm/client.py:601-612 | One provider sleeps at most the sum of min(base·2^i, max) over its retries, with the power and the minimum written out |
| LlmAttempts.EntryDelays | backend/app/llm/client.py:573-612 | Between two attempts, and only there, the client sleeps a drawn share of min(base·2^i, max), each with its own draw |
| LlmAttempts.CallSleepsWithinBudget | backend/app/llm/client.py:384-540 | A whole call sleeps at most (1 + fallbacks) times that sum |
| LlmAttempts.MoreAttempts | backend/app/llm/client.py:573-596 | An entry makes more than n attempts exactly when the guards let it in, n retries are allowed and the first n replies are retryable refusals |
| LlmAttempts.HalfOpenProbesOnce | backend/app/llm/client.py:156-189 | A half-open entry is a single probe exactly when no retry is allowed or the probe is not refused in a retryable way |
| LlmAttempts.HalfOpenMakesFour | backend/app/llm/client.py:542-596 | The input that shows both: with three retries a half-open entry makes four attempts |
| LlmClientLaws.ProviderOutcome | backend/app/llm/client.py:542-596 | An entry makes attempts exactly when breaker and cap let it in, at most max_retries + 1, and succeeds exactly when the last one is answered |
| LlmClientLaws.MismatchLeavesRunOfOne | backend/app/llm/client.py:480-495 | A schema mismatch leaves a failure run of length one, however often it repeats |
| LlmClientLaws.FirstAcceptableWins | backend/app/llm/client.py:455-506 | The chain returns the first provider in order that neither fails nor mismatches, with its own result, and nothing only if there is none |
| LlmClientLaws.OneRowPerCall | backend/app/llm/client.py:497-540 | Past the guards a call writes exactly one row: ok or fallback with the answer's own model, usage and cost, or a zero-cost error; with at most (1 + fallbacks)·(max_retries + 1) attempts |
| LlmClientLaws.RefusedAndUnlogged | backend/app/llm/client.py:432-454 | Over the budget, or asked to reidentify, a call asks no provider and logs nothing; without logging it decides and spends the same |
| LlmClientLaws.RefusedAtTheCap | backend/app/llm/client.py:98-121 | A call is refused exactly when a cap is set and the cost held for its day has reached it |
| LlmClientHistories.BudgetHoldsOverCalls | backend/app/llm/client.py:98-135 | Over any sequence of non-overlapping calls with ordered dates, spend stays within cap + one call and is the cost of the calls made that succeeded on the guard's date |
| LlmClientHistories.SpentIsLoggedCost | backend/app/llm/client.py:507-540 | With every call logged, the amount spent is the summed cost of the ok and fallback rows added since the guard's date last rolled |
| LlmClientHistories.CapBoundsDailyAttempts | backend/app/llm/client.py:231-246 | Over any sequence of calls with ordered dates, calls across midnight included, every attempt belongs to an entry, and the entries whose cap read a day make at most max_calls·(max_retries + 1) attempts |
| LlmCoolDown.BreakerIsItsHistory | backend/app/llm/client.py:542-596 | After any sequence of calls a provider's breaker is the replay of what its entries recorded, in order |
| LlmCoolDown.CoolDownOverHistories | backend/app/llm/client.py:175-189 | Once the last outcomes a provider recorded are a threshold of failures, every entry before the latest one plus the cool-down attempts nothing, sleeps not at all and leaves its cap; any other entry attempts exactly when the cap allows |
| LlmCoolDown.NewProviderCools | backend/app/llm/client.py:155-210 | A provider not met before is left out after five failures in a row, for sixty seconds from the latest |
| PromptTemplate.RenderPrompt | backend/app/llm/client.py:656-683 | For every text the result is that of some order of the found names, and an error exactly when one of them has no variable |
| PromptTemplate.PlaceholdersAreNames | backend/app/llm/client.py:686-692 | The names found in a template are the names of its tokens and of its spaced placeholders |
| PromptTemplate.MatchesExactly | backend/app/llm/client.py:686-692 | A placeholder is found exactly where two braces, blanks, an identifier, blanks and two braces stand |
| PromptTemplate.ReplaceFillsOne | backend/app/llm/client.py:675-683 | Replacing one name in a template, whatever the value, fills exactly its tokens |
| PromptTemplate.OrderDoesNotMatter | backend/app/llm/client.py:675-692 | Every set order renders the simultaneous substitution, for values that may hold placeholders, as long as no token's value brings in another found token |
| PromptTemplate.OrdersAgreeIffNothingBroughtIn | backend/app/llm/client.py:675-692 | All set orders give one text exactly when no token's value brings in another found token, unless that one is in its own value |
| PromptTemplate.TokenInValueDependsOnOrder | backend/app/llm/client.py:675-683 | For every template and values in which a token's value brings in another found token, the orders that end in the one and in the other give two texts |
| PromptTemplate.SelfTokensCanAgree | backend/app/llm/client.py:675-683 | Values that hold their own tokens can bring in each other's and still give one text in every order |
| PromptTemplate.SpacedPlaceholdersStay | backend/app/llm/client.py:686-692 | In every order a template renders with its tokens filled and its spaced placeholders unchanged; a placeholder is left exactly when the template has a spaced one |
| OfflineQueue.SyncQueue.EnqueueMutation | frontend/src/offline/mutations.ts:67-80 | One new row with no attempts joins the table |
| OfflineQueue.SyncQueue.RemovePendingMutation | frontend/src/offline/mutations.ts:56-59 | Exactly that row leaves |
| OfflineQueue.SyncQueue.ReplayPendingMutations | frontend/src/offline/mutations.ts:88-119 | The loop, with edits made during every request, equals the specified replay |
| OfflineQueue.SyncQueue.DrainNow | frontend/src/hooks/useSyncQueueDrain.ts:33-47 | Nothing happens offline, before consent or during another drain; otherwise one replay, the lock released, the error set exactly when something failed |
| OfflineQueueLaws.ListingIsTheTable | frontend/src/offline/mutations.ts:47-49 | The listing holds exactly the table's rows in index order |
| OfflineQueueLaws.NothingLostNorRepeated | frontend/src/offline/mutations.ts:88-119 | Over every run a mutation is sent at most five times and accepted at most once; queued, it waits with its refusals counted, was cancelled, or was accepted |
| OfflineQueueLaws.FirstInFirstOut | frontend/src/offline/mutations.ts:88-119 | Over every run a mutation is accepted only when everything queued before it and ahead of it in the index is cancelled, accepted or exhausted |
| OfflineQueueLaws.FirstInFirstOutIffAhead | frontend/src/offline/mutations.ts:47-49 | For two mutations queued one after the other, no run accepts the later while the earlier waits, exactly when the earlier is ahead by creation time and then id |
| OfflineReplays.ReplayIsOneLane | frontend/src/offline/mutations.ts:88-119 | In steps of starting, answering and writing, a drain that nothing overlaps leaves what the replay loop leaves |
| OfflineReplays.CleanRunsAcceptOnce | frontend/src/offline/mutations.ts:88-119 | Over every interleaving of any number of replays, every server and every edit, mutations are accepted at most once if each replay starts when no row listed with attempts left is in another's hands |
| OfflineReplays.StartIsSafeIffUnexposed | frontend/src/features/offline/QueuedActionsSheet.tsx:34-42 | After such a run, everything that can follow one more start accepts at most once exactly when no such row exists |
| OfflineReplays.WithoutOverlapAcceptsOnce | frontend/src/hooks/useSyncQueueDrain.ts:33-47 | Replays of which none starts while another is in flight accept every mutation at most once |
| OfflineReplays.OverlappingReplaysSendTwice | frontend/src/features/offline/QueuedActionsSheet.tsx:34-42 | For every waiting row of every table, two overlapping replays can have it accepted twice |
| OfflineQueueLaws.DrainSendsInOrder | frontend/src/offline/mutations.ts:88-119 | A drain sends the eligible rows in order up to the first refusal and counts them |
| OfflineQueueLaws.EditsCanWait | frontend/src/offline/mutations.ts:88-119 | A drain interleaved with edits leaves what an undisturbed drain followed by those edits leaves |
| OfflineQueueLaws.DrainRemovesTheReplayed | frontend/src/offline/mutations.ts:88-119 | A drain removes exactly the replayed rows and bumps at most one |
| OfflineQueueLaws.DrainLowers | frontend/src/offline/mutations.ts:88-119 | The attempts left strictly drop on every drain that finds an eligible row, whatever is refused or cancelled |
| OfflineQueueLaws.EveryQueueSettles | frontend/src/offline/mutations.ts:88-119 | After as many drains as attempts are left only exhausted rows remain |
| RateLimiter.ManualRunRateLimiter.Check | backend/app/core/rate_limit.py:51-79 | Prunes and decides on one user's bucket, records only an accepted call, and leaves every other bucket alone |
| RateLimiter.BucketDecidesLikeHistory | backend/app/core/rate_limit.py:65-69 | The pruned bucket decides as every call ever accepted would |
| RateLimiter.AcceptedWhileThereIsRoom | backend/app/core/rate_limit.py:51-79 | A call is accepted exactly when fewer than the capacity were accepted in the window that ends with it, and the accepted calls make up the history |
| RateLimiter.WindowHoldsAtMostCapacity | backend/app/core/rate_limit.py:63-79 | No closed window holds more accepted calls than the capacity |
| RateLimiter.RetryAfterFrees | backend/app/core/rate_limit.py:68-78 | After a rejection a call is accepted exactly when the oldest entry has left; Retry-After + 1 seconds always suffice, exactly Retry-After if and only if less than a second was left |
| RateLimiter.ZeroCapacityFails | backend/app/core/rate_limit.py:68-70 | Every check ends in an index error exactly for capacities of zero or less |
| RateLimiter.UsersAreIndependent | backend/app/core/rate_limit.py:66-79 | A user's bucket depends on that user's own checks alone |
| Envelope.ParsePacked | backend/app/core/security.py:187-206 | Parsing undoes packing |
| Envelope.PackParsed | backend/app/core/security.py:187-206 | Every accepted blob is the concatenation of its parts |
| Envelope.ParsesIffPacked | backend/app/core/security.py:187-206 | Exactly the packed blobs parse |
| Envelope.CutsAreRejected | backend/app/core/security.py:205-206 | A cut blob parses exactly when at least one ciphertext byte is left |
| Envelope.DecryptUndoesEncrypt | backend/app/core/security.py:134-220 | Encryption succeeds exactly for non-empty plaintexts with a wrapped key under 65536 bytes, and decryption gives the plaintext back |
| Envelope.ContextDecides | backend/app/core/security.py:169-220 | A blob gives its plaintext under its own context and is refused by KMS under every other |
| Envelope.DecryptsExactlyTheSealed | backend/app/core/security.py:169-220 | A blob decrypts to a text exactly when it packs that text sealed under the key KMS unwraps for the context |
| Envelope.BlobLayout | backend/app/core/security.py:134-167 | Encryption byte by byte: version 1, the two lengths high byte first, the wrapped key, twelve nonce bytes, the ciphertext; and its three errors |
| Envelope.DecryptErrors | backend/app/core/security.py:187-220 | Which error, or which text, every blob ends in |
| SessionCookie.EncodingIsDigits | backend/app/api/session.py:30-39 | An encoding has neither dot nor pad |
| SessionCookie.DecodeUndoesEncode | backend/app/api/session.py:30-54 | Decoding undoes encoding for every byte string |
| SessionCookie.EncodingIsBase64 | backend/app/api/session.py:30-39 | Three bytes at a time the encoding is four letters of the url-safe alphabet that stand for the same number, and two or three for what is left |
| SessionCookie.DigitsDecodeUnlessOneOver | backend/app/api/session.py:42-54 | A text of base64 digits decodes exactly when its length is not one over a multiple of four |
| SessionCookie.VerifyUndoesSign | backend/app/api/session.py:57-97 | A cookie verifies, under its own secret, to its payload |
| SessionCookie.CookieLayout | backend/app/api/session.py:57-69 | The body is before the only dot and its signature after it |
| SessionCookie.VerifiesExactly | backend/app/api/session.py:72-97 | Exactly the texts of two decodable segments verify whose second is the signature of the first; malformed is every text without exactly one dot |
| SessionCookie.OtherSecretIsRefused | backend/app/api/session.py:72-97 | Under another secret it is refused exactly when the two signatures of its body differ |
| SessionCookie.DecodesIffDecodable | backend/app/api/session.py:42-54 | Which texts the lenient decoder accepts, by counting digits and pads, and with which error each other text ends |
| SessionCookie.UndocumentedErrors | backend/app/api/session.py:72-97 | An error other than the documented one escapes exactly when there is one dot and a segment is not decodable by its characters |

## Left out

- Stage handlers (classification, ingest, unsubscribe scoring, digests, fan-out queries): seen only as the rows and lock changes they make; of the summary and cluster jobs only what their LLM calls leave behind is modelled, not how mail is grouped or prompts are built.
- RunLifecycle.RunsOnlyMoveForward: is about calls on the committed row; `StaleSession` says what one call on an older copy does, and `ClaimProtocol` what stale progress rewrites do, but runs that mix stale calls freely are not modelled.
- `ClaimProtocol`: row locks that make one progress write wait for another are left out, which allows more interleavings than the database does; isolation levels other than read committed are not modelled.
- RunLiveness.EveryFairRunEnds: assumes fairness, which EmptyClusterJobStrandsRun and RefusedSummaryStrandsRun show to be needed, and leaves out inline builders and steps that can raise a counter again: new members, a member's changed verdict, a summary that arrives after its fatal error, a cluster row moved to another run.
- RunLock.EarlierRunFailed: assumes no manual start between the two starts; ManualStartReopensSlot shows the assumption is needed, and LatestStartFailed says what holds without it.
- Run deletion, account removal and retention jobs: no run, mail or claim is ever deleted in the model.
- Run list, archive and statistics endpoints, Pydantic bounds, logging, metrics and tracing: only easy members.
- The `features.unsubscribe` switch around the hygiene queue: taken as on.
- Scheduling.ParseFormatted: covers ASCII digits; `int()` also reads other Unicode digits.
- The tz database: a zone is two offset functions, so which readings are ambiguous or missing is not modelled beyond the offset they get.
- Scheduling.NextIsEarliest: leaves out zones in which a wall time of a past day still lies ahead, or that move by more than half a day; there the three-day search can prefer or miss a slot.
- Negative `max_retries`: the loop would end without an attempt and fail an assertion.
- `LlmClient.LLMClient`: requires that two provider names share neither a breaker nor a cap object, and that calls do not overlap.
- Prompt redaction and re-identification: the allowlist is empty, so every re-identifying call is refused; which of its two refusals is raised is not distinguished, and redaction counts are copied unchanged.
- The LLM client of a record: every handler builds its own (backend/app/llm/factory.py:24-66), so guard, cap and breaker start anew with each record, and their laws hold for the life of one client.
- PromptTemplate.OrdersAgreeIffNothingBroughtIn: leaves out a brought-in token that is in its own value. There no condition on which value brings in which token can be exact, as SelfTokensCanAgree shows: whether the orders agree is an equation between two words of tokens. Also left out are texts in which two opening braces do not open a placeholder, because a replacement can then complete a token across its border.
- Values that are not strings: `str()` is applied before the model's rendering starts.
- OfflineQueueLaws.EveryQueueSettles: assumes that nothing new is queued while the drains go on.
- IndexedDB failures and query invalidation after a replay: not part of this model.
- Ids drawn twice by the random generator: a second draw of an id is ignored.
- Floating-point rounding in the limiter, the breaker and the budget guard: times and costs are reals.
- RateLimiter.BucketDecidesLikeHistory: assumes calls in order of time; with a clock that goes back, pruned entries stay pruned.
- The limiter's thread lock and its per-process singleton: one check is one step.
- AES-GCM, KMS, HMAC and JSON internals: functions with inverse laws; nothing is claimed about their strength.
- The rest of the frontend, the migrations, the seed and export scripts and the infrastructure code.

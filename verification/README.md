# Verified model of the insights job queue and its neighbours

This Dafny project models the parts of the repository where state, concurrency and failure meet, and
proves what holds of them over all inputs and all runs. Where a promise made in the documentation
fails, the code's behaviour is kept, a lemma gives a concrete run that shows it, and an
if-and-only-if lemma gives the exact condition under which the promise holds.

| part | modules |
|---|---|
| Insights job queue over Redis Streams | `Streams`, `JobProtocol`, `ClaimAccounting`, `NoSilentLoss`, `BoundedRetries`, `PurgeRows`, `PurgeRetries`, `RedriveBound`, `Lifecycles`, `Envelopes`, `DlqPaging`, `RedisStreams`, `Worker` |
| Admission control | `Gcra`, `AcquireLoop`, `AdmissionController`, `AdmissionDurations` |
| Refresh-token rotation | `RefreshRotation`, `RefreshOverlap` |
| Request timeout middleware | `TimeoutMiddleware` |
| Graph scripts | `Backfill`, `ColumnLineage`, `SolidatusImport` |

`JobProtocol` is the centre: a step machine over stream logs, undelivered and pending entries with
delivery counts, claims, DLQ rows, purge job rows, the program counters of producers, tasks,
operators and trimmers, and the Redis clock. Crashes and claim expiry are steps. The modules around
it each prove one family of theorems over all its runs. `RedisStreams`, `Worker`,
`AdmissionController`, `RefreshRotation`, `TimeoutMiddleware` and `SolidatusImport` also hold the
classes whose fields the code updates in place, proved against the functions that the theorems speak
about.

## Assumptions

- Assumptions on the environment of the queue are fields of `JobProtocol.Regime`, conditions on
  single steps: XPENDING lookups are answered and find their message, deliveries of one message (or
  of one purge job) do not overlap, trim checks see no undelivered entry below the cutoff and their
  cutoff is not ahead of the server clock, purge rows are not resumed. Each theorem names the ones
  it needs, and the ones called `...Exactly` say that it needs them; `ANY` assumes none.
- Each purge request makes a new row and enqueues its id once
  (`backend/app/services/aggregation/service.py:766-850`).
- Each Redis command is one atomic step that takes effect at most once, although the client retries
  on a timeout (`retry_on_timeout`), and so is each database commit; a failed commit applies
  nothing. Ids are pairs of naturals in lexicographic order; the increased sequence part of a page
  cursor does not overflow.
- `str`/`int` and `isoformat`/`fromisoformat` round-trip (`Envelopes.Faithful`).
- Real arithmetic stands for Lua's doubles; clock readings are integer milliseconds.
- No cancellation lands inside `drain`; one process writes a provider's row.
- Refresh tokens are signed, so a readable one was minted; minted ids are new and hold no colon.
  `RefreshRotation` takes the rotation check as one atomic step; `RefreshOverlap` takes it apart.
- The digest of a level map is any function; `Backfill.HonestExactly` says what is needed of it.
- `ColumnLineage.Rules` leaves open how a URN is parsed, which layer a schema name suggests and
  which columns match; the general theorems hold for any such rules. `CodeRules` is the code's
  parser and layer rule, with lower-casing of ASCII letters;
  the importer's upper-casing is that of ASCII letters too.
- A Solidatus builder builds one document.

## Where the code and its documentation disagree

- `enqueue.py` describes the claim as ruling out two live jobs of one scope; failed attempts below
  the limit, purges that are refused admission and late reclaims delete it while a message is still
  pending (`ClaimAccounting.OneLiveJobExactly`).
- `worker_concurrency` is called a cap; recovery and XREADGROUP's COUNT apply it per stream
  (`Worker`).
- `purge.record_failure` is documented as called after attempts are exhausted
  (`PurgeRetries.TimelyExactly`). It runs on every failure, and a recorded failure closes the row, so
  the retries that `purge.py` announces happen only when the failure could not be recorded
  (`PurgeRetries.RetriedExactly`).
- A redriven message keeps its meaning only if its kind is its stream's (`Envelopes`), and the
  redrive limit holds only with two attempts or more and without overlaps (`RedriveBound`).
- `resume` does not ask for the kind of job, and can open a purge row whose message is long gone
  (`PurgeRows.ResumeReopensRow`).
- `refresh.py` promises that reuse kills the family. The raise that reports it leaves the session
  block, and the production session rolls back on exceptions (`backend/app/db/engine.py:252-286`),
  so the family lives on (`RefreshRotation`).
- T-1 of the timeout middleware is stated without a condition (`TimeoutMiddleware`).
- The failure streak in the table is called the latest one; a fold-back after a failed flush, or a
  drain that overtakes another one, can leave an older one there for good
  (`AdmissionController.StreaksSettleExactly`). The last duration beside it goes wrong only in the
  second case (`AdmissionDurations.DurationsSettleExactly`).
- The importer's documentation calls every direct child of a layer an object. Types also depend on
  document order: when several entities list a child, the last one counts, and a parent that is a
  layer by prefix alone counts only if it stands before the child (`SolidatusImport`).
- The acquire loop waits up to its budget for a token, but compares a hint that counts from before
  its EVAL with a clock read after it; it gives up early exactly when the first grant comes by the
  deadline all the same (`AcquireLoop.PrematureExactly`).
- The backfill's header says that one unknown label makes both levels -1; each end is stamped by
  itself (`Backfill.DocumentedExactly`).

## Model

| member | source | states |
|---|---|---|
| Streams.DedupKeyInjective | backend/insights_service/redis_streams.py:133-139 | Two claims share a Redis key only when stream and scope are the same, so releasing one scope never frees another |
| ClaimAccounting.ClaimsAccountForJobs | backend/insights_service/enqueue.py:76-100 | In every reachable state, whatever crashed, expired, was redriven or ran twice: producers between claim and XADD + undelivered or pending messages of a scope + (1 if its claim is free) + workers between a successful XACK and the release <= 1 + early releases so far |
| ClaimAccounting.AtMostOneJobPerScope | backend/insights_service/redis_streams.py:142-150 | While no claim of the scope has been released early, any two of those holders are the same one |
| ClaimAccounting.OneLiveJobExactly | backend/insights_service/enqueue.py:64-100 | Over all runs with no forced release, expiry, redrive or failing XACK, in whatever environment, a scope has at most one live job if and only if its kind is stats or discovery, max attempts is at most 1, and deliveries of one message do not overlap |
| ClaimAccounting.TwoLive | backend/insights_service/worker.py:293-382 | In each other case a run of such an environment ends with two live jobs of the scope |
| ClaimAccounting.SoftRetryDropsTheClaim | backend/insights_service/worker.py:285-311 | A purge that is refused admission is left pending with its claim deleted, whatever the limit |
| ClaimAccounting.LateReleaseLetsThirdIn | backend/insights_service/worker.py:407-432 | A reclaim that dead-letters a message already acknowledged deletes the claim of the job that came after, and another one enters beside it |
| ClaimAccounting.EarlyCounts | backend/insights_service/worker.py:293-323 | The early counter rises exactly at forced releases, TTL expiries, redrive XADDs, and releases by a worker that removed no message from the PEL (failed attempt below the limit, or an XACK that found nothing), and at no other step |
| ClaimAccounting.HeldExactly | backend/insights_service/redis_streams.py:142-150 | Over any run a slot is held exactly when it was claimed and since then neither force-released, nor expired, nor released by a task of the slot |
| ClaimAccounting.ForcedJobGetsThrough | backend/insights_service/enqueue.py:211-228 | From whatever state, whoever holds the claim, a forced enqueue of a discovery or purge job ends with its message unread in the stream and the slot held again |
| ClaimAccounting.SuccessFreesTheSlot | backend/insights_service/worker.py:276-323 | The bound is not empty: after a job that succeeds, the free claim is the one and only holder of its scope |
| ClaimAccounting.FailureDropsTheClaim | backend/insights_service/worker.py:375-382 | A failed attempt below the limit ends with the message pending and its claim deleted |
| NoSilentLoss.EveryMessageAccountedFor | backend/insights_service/worker.py:250-323 | Every parseable message ever XADDed is undelivered, pending, committed, soft-retry acknowledged (never a purge), in the DLQ history, or trimmed; for every run, with a crash between any two steps and no assumption on overlaps or XPENDING |
| NoSilentLoss.TrimSparesPending | backend/insights_service/redis_streams.py:502-559 | If each passing trim check saw no undelivered entry below its cutoff, and its cutoff, which comes from a client clock, was not ahead of the server clock, no run trims a pending entry, whatever happens between XPENDING and XTRIM |
| NoSilentLoss.TrimSparesPendingExactly | backend/insights_service/redis_streams.py:502-559 | No run of an environment trims a pending entry if and only if the environment gives both of these guarantees for every check |
| NoSilentLoss.FutureCutoffLoses | backend/insights_service/redis_streams.py:510-549 | The clock condition is needed: a check that sees nothing unread at all, with a cutoff ahead of the server clock, loses a message that is added and delivered before the XTRIM |
| NoSilentLoss.AtomicTrimSparesPending | backend/insights_service/redis_streams.py:524-549 | With check and trim adjacent the condition on undelivered entries is not needed |
| NoSilentLoss.StaleBacklogCanBeLost | backend/insights_service/redis_streams.py:524-549 | If an undelivered entry is below the cutoff, one delivery between check and trim lets the trim remove a pending entry |
| NoSilentLoss.TrimSafeExactly | backend/insights_service/redis_streams.py:502-559 | After one passing check, with no other trim under way or to come and a cutoff not ahead of the server clock, all continuations spare the pending list if and only if no undelivered entry of the stream is below the cutoff |
| BoundedRetries.StartsBounded | backend/insights_service/worker.py:330-441 | Over any run in which every XPENDING lookup finds its message (or with one attempt), with crashes anywhere and overlapping reclaims, a message is started at most max(1, max_delivery_attempts - 1) times |
| BoundedRetries.StartsBoundedExactly | backend/insights_service/worker.py:443-453 | That bound holds for all runs of an environment if and only if lookups always find their message, or max attempts is at most 1: a lookup that does not counts as 1 |
| BoundedRetries.EmptyRepliesStartAgain | backend/insights_service/worker.py:443-453 | No error is needed: when deliveries overlap and the first one acknowledges, every later lookup is answered with an empty list, and the handler is started any number of times |
| BoundedRetries.PoisonedMessageEndsInDlq | backend/insights_service/worker.py:407-432 | The bound is reached in every environment: a handler that crashes every time is started exactly that often, and the next reclaim writes the DLQ row, acknowledges and frees the claim |
| PurgeRows.PurgeLeavesOnlySettled | backend/insights_service/purge.py:63-96 | In a safe environment a purge message gone from stream and PEL has a terminal or absent job row, or it was dead-lettered or trimmed. Safe: no purge row is resumed, and deliveries of one job are apart, or nothing is redriven and a reclaim starts no second handler on a message |
| PurgeRows.OverlapReopensRow | backend/insights_service/worker.py:386-439 | Where reclaims overlap and may start: a purge is reclaimed from under its handler, and ends acknowledged with its row `running` |
| PurgeRows.RedrivesReopenRow | backend/insights_service/redis_streams.py:323-375 | Where redrives are allowed and jobs may overlap: two operators redrive one DLQ row, and the copies end with one acknowledged and the row `running` |
| PurgeRows.ResumeReopensRow | backend/app/services/aggregation/service.py:576-624 | Where purge rows may be resumed: a purge that failed and was acknowledged is pending again, with no message |
| PurgeRows.PurgeSafeExactly | backend/insights_service/purge.py:63-96 | The purge guarantee holds over all runs of an environment if and only if the environment is safe |
| PurgeRetries.OverForGood | backend/insights_service/purge.py:75-80 | Once a job's row is closed or gone and no handler is at work on it, none ever is again, whatever is reclaimed, redriven or enqueued, unless the row is resumed |
| PurgeRetries.PersistedFailureIsFinal | backend/insights_service/purge.py:311-327 | So it is after every purge failure that reaches the row, whatever the attempts left |
| PurgeRetries.RetriedExactly | backend/insights_service/purge.py:1-12 | After a failed purge attempt whose next delivery is below the limit, some continuation works on the purge again if and only if the failure was not recorded in the row |
| PurgeRetries.RetryEndsIdle | backend/insights_service/purge.py:75-80 | A run: an attempt fails and is recorded, and its redelivery finds the row closed |
| PurgeRetries.RetryIsAcknowledged | backend/insights_service/worker.py:361-382 | The same run, one step further: the purge is off the pending list, in no DLQ, and was not done |
| PurgeRetries.TimelyExactly | backend/insights_service/purge.py:311-327 | Purge failures are recorded only after attempts are exhausted, as documented, in every run of whatever environment, if and only if max attempts is at most 1 |
| Lifecycles.LifeExactly | backend/insights_service/redis_streams.py:155-165 | In any run a message is unread, pending with a delivery count, or gone, exactly as the XADDs, XREADGROUPs, XAUTOCLAIMs, XACKs and XTRIMs about it say, in order |
| Lifecycles.GoneExactly | backend/insights_service/worker.py:542-546 | A logged message is no longer live if and only if an XACK or an XTRIM removed it |
| Lifecycles.HistoryExactly | backend/insights_service/worker.py:250-323 | A delivery counts as started, and a message as committed, exactly when the run has the handler entered, or finished |
| Lifecycles.NoCommitWithoutHandler | backend/insights_service/worker.py:250-281 | In any run a committed message had a handler entered for it |
| Lifecycles.UnreadableIsOnlyDropped | backend/insights_service/worker.py:184-193 | A message that no envelope can read never gets a handler or a DLQ row, and its tasks can only acknowledge and drop it |
| Lifecycles.PresentExactly | backend/insights_service/redis_streams.py:168-194 | A DLQ row is there exactly from its writing to its deletion by an operator or its eviction |
| Lifecycles.CopiedFirst | backend/insights_service/redis_streams.py:345-375 | An operator can delete a row only once its copy is in the stream; the copy is the message itself, in its own stream, one redrive on, and the deletion removes the row |
| Lifecycles.TrimmedExactly | backend/insights_service/redis_streams.py:524-549 | A message counts as trimmed, or lost, exactly when an XTRIM took it unread, or pending |
| Lifecycles.StatusExactly | backend/insights_service/purge.py:63-110 | A purge row says what the endpoints or a handler of its job last wrote to it, in any run |
| Lifecycles.CompletedByHandler | backend/insights_service/purge.py:75-96 | No purge row says completed without a handler of its job that worked and finished so |
| RedriveBound.RedriveIsLossless | backend/insights_service/redis_streams.py:323-375 | At every point of every run, with operators crashing between XADD and XDEL and redriving one row together, a DLQ row is in the DLQ, or its copy is logged in the original stream with the same content and one more hop, or MAXLEN or a delete removed it |
| RedriveBound.RedrivesBounded | backend/insights_service/worker.py:421-432 | With lookups that find their message, deliveries of a message apart and max attempts >= 2, no message is the product of more than DLQ_REDRIVE_LIMIT redrives |
| RedriveBound.RedrivesBoundedExactly | backend/insights_service/worker.py:371-374 | The redrive limit holds for every run of an environment if and only if nothing may be redriven, or max attempts >= 2, lookups find their message and deliveries are apart; in all other environments chains of any length exist, because the in-handler path resets the counter |
| Envelopes.ParseOfToFields | backend/insights_service/schemas.py:29-146 | parse_envelope undoes to_stream_fields for all three envelopes, and dispatches on their own kind |
| Envelopes.SameScopeExactly | backend/insights_service/schemas.py:29-146 | Two jobs of one kind have one scope key if and only if they are about the same data source, or the same asset of the same provider (provider ids hold no colon) |
| Envelopes.RedriveKeepsMeaningExactly | backend/insights_service/redis_streams.py:168-194 | parse_envelope of the redriven fields equals that of the dead-lettered message if and only if the kind it was read as is its stream's kind, because send_to_dlq overwrites `kind` |
| Envelopes.PurgeRedrivenAsStats | backend/insights_service/redis_streams.py:168-194 | The failing case in full: a purge envelope on the stats stream is redriven as a stats poll of the same data source |
| Envelopes.RecoveryKeepsCount | backend/insights_service/worker.py:421-432 | Dead-lettering raw fields keeps `redrive_count`; a redrive of that row adds exactly one |
| Envelopes.HandlerForgetsCount | backend/insights_service/worker.py:371-374 | Dead-lettering rebuilt fields sets `redrive_count` back to 0 |
| Envelopes.UnreadableCounter | backend/insights_service/redis_streams.py:323-360 | A redrive counter that is absent or no number counts as 0, and the redriven copy carries 1 |
| Envelopes.ProtocolSeesFields | backend/insights_service/redis_streams.py:345-360 | For a message whose kind is its stream's, the step machine's DLQ rows and redriven copies are what the field-level operations produce |
| Envelopes.ProtocolSeesForeign | backend/insights_service/worker.py:184-193 | Fields that parse_envelope rejects are the step machine's foreign messages, and no others are |
| Envelopes.ProtocolSeesProducer | backend/insights_service/enqueue.py:76-93 | The step machine's fresh messages are what producers put on the wire |
| DlqPaging.PageIs | backend/insights_service/redis_streams.py:274-304 | A page holds exactly the present ids from its cursor up to the next cursor, which lies ahead |
| DlqPaging.PagesNeverRepeat | backend/insights_service/redis_streams.py:274-304 | Whatever is appended or deleted between pages, ids are read in strictly increasing order, so none twice |
| DlqPaging.PagesNeverSkip | backend/insights_service/redis_streams.py:274-304 | An entry present in every snapshot is read once paging has ended |
| DlqPaging.PagesEnd | backend/insights_service/redis_streams.py:274-304 | On a fixed DLQ paging ends within rows/limit + 1 pages, having read every row from the cursor on, in order |
| RedisStreams.RedisStreams.constructor | backend/insights_service/redis_streams.py:37-99 | Three empty streams, no claims, no dead letters |
| RedisStreams.RedisStreams.TryClaim | backend/insights_service/redis_streams.py:142-146 | SET NX EX: succeeds exactly when the claim is free or expired, then holds it for the TTL; a held claim and every other scope's stay as they are |
| RedisStreams.RedisStreams.ReleaseClaim | backend/insights_service/redis_streams.py:148-150 | Frees the scope's claim whoever holds it, and no other scope's |
| RedisStreams.RedisStreams.Enqueue | backend/insights_service/redis_streams.py:155-165 | Appends under an id above every earlier one of the stream, deleted ones included |
| RedisStreams.RedisStreams.SendToDlq | backend/insights_service/redis_streams.py:168-194 | Appends the DLQ payload; rows are evicted from the oldest end only, as many as Redis is willing to and never below DLQ_MAXLEN |
| RedisStreams.RedisStreams.ListDlqEntries | backend/insights_service/redis_streams.py:274-304 | Returns the page and cursor that the paging theorems are about; nothing for a limit of 0 or less |
| RedisStreams.RedisStreams.DeleteDlqEntry | backend/insights_service/redis_streams.py:316-320 | Removes that row alone and reports whether it was there |
| RedisStreams.RedisStreams.RedriveDlqEntry | backend/insights_service/redis_streams.py:323-375 | Each error exactly in its case and without effect, InvalidOriginalStream exactly when the row names none of the three streams; on success the copy is in the stream that the row names, and the row is gone exactly when XDEL worked |
| RedisStreams.PayloadNamesItsStream | backend/insights_service/redis_streams.py:168-194 | What send_to_dlq writes names the stream it came from, so that is where a redrive adds the copy |
| RedisStreams.RedisStreams.TrimStreamsByMinid | backend/insights_service/redis_streams.py:502-559 | Per stream: skipped exactly on a Redis error or a pending entry below the cutoff, otherwise entries below the cutoff are dropped from the old end; one stream's failure leaves the others their result |
| RedisStreams.TrimKeepsPending | backend/insights_service/redis_streams.py:524-549 | A trim outcome keeps every pending entry that the stream held |
| Worker.ActiveTasksBounded | backend/insights_service/worker.py:117-157 | In every reachable state at most (number of streams) * worker_concurrency tasks are active |
| Worker.OnePollReachesBound | backend/insights_service/worker.py:126-157 | The bound is reached: one poll of an idle worker may bring that many |
| Worker.TableExactly | backend/insights_service/worker.py:176-204 | A message has a task exactly from its arrival until its finished task is reaped; an arrival under an active id changes nothing |
| Worker.DroppedExactly | backend/insights_service/worker.py:184-193 | Exactly the unreadable messages of a batch are dropped, each as often as it comes |
| Worker.ConcurrencyIsCapExactly | backend/stats_service/worker.py:85-115 | worker_concurrency itself caps every run if and only if there is at most one stream (the stats worker) or no slot at all: the three-stream worker can hold more |
| Worker.HandlersPerScopeBounded | backend/insights_service/worker.py:212-224 | At most max_per_graph handlers run per resolved scope key, and the semaphore's free permits are exactly the rest |
| Worker.UnlimitedExactly | backend/insights_service/worker.py:206-224 | In any run a handler runs without a semaphore if and only if its message was last resolved to no key or the empty one; otherwise it runs on the semaphore of that key |
| Worker.ResolvedHandlersBounded | backend/insights_service/worker.py:212-224 | In any run the handlers at work whose messages were resolved to one key number at most max_per_graph |
| Worker.EntersWhenFree | backend/insights_service/worker.py:212-224 | A message of no scope enters its handler at once, one of a scope exactly when the scope has a free permit, and takes it |
| Worker.TaskCanEnd | backend/insights_service/worker.py:206-228 | A task can end whatever it is at; a handler gives its permit back, and the next poll forgets the task |
| Worker.SameKeyExactly | backend/insights_service/worker.py:493-498 | Two data sources share a semaphore if and only if they are the same graph of the same provider |
| Worker.LoneSource | backend/insights_service/worker.py:491-502 | Sources without a provider are limited each by itself; a missing row or a failed query means no limit |
| Worker.DiscoveryShares | backend/insights_service/worker.py:455-498 | A stats or purge job shares its semaphore with exactly the discovery jobs of its graph |
| Worker.InsightsJobConsumer.Spawn | backend/insights_service/worker.py:176-204 | An unreadable message is acknowledged and dropped; an id that is active already is not spawned again, whatever its stream |
| Worker.InsightsJobConsumer.SpawnBatch | backend/insights_service/worker.py:148-157 | A batch spawns and drops as the transition system says |
| Worker.InsightsJobConsumer.ReapDoneTasks | backend/insights_service/worker.py:548-556 | Exactly the finished tasks are forgotten |
| Worker.InsightsJobConsumer.PollOnce | backend/insights_service/worker.py:124-157 | One loop iteration is one Poll step of the transition system |
| Worker.ScopeKeyCache.constructor | backend/insights_service/worker.py:83-95 | Starts empty and valid |
| Worker.ScopeKeyCache.Store | backend/insights_service/worker.py:503-509 | The new key is cached; a full cache loses exactly the oldest source, and no other value changes |
| Worker.ScopeKeyCache.ResolveScopeLockKey | backend/insights_service/worker.py:455-510 | With an unchanged database a hit and a miss give the same key; a failed query gives None and caches nothing |
| Worker.ScopeKeyCache.CacheSize | backend/insights_service/worker.py:503-509 | Never more than 1024 sources are cached |
| Gcra.ScriptIsTokenBucket | backend/insights_service/admission.py:102-137 | For every request sequence on a clock that does not go back, the script grants exactly when a bucket of `capacity` refilled at `refill_per_sec` holds a token |
| Gcra.StepSimulates | backend/insights_service/admission.py:108-136 | One EVAL and one bucket request agree and stay related by level = capacity - max(0, TAT - now)/emission |
| Gcra.RateBounded | backend/insights_service/admission.py:108-136 | Grants whose clock readings lie in [a, b] number at most capacity + (b - a) * refill / 1000, with no assumption on clocks |
| Gcra.ExpiryChangesNothing | backend/insights_service/admission.py:131-136 | Expiring the key after ceil(dvt + 1000) ms changes no grant, denial or hint, as long as no later reading falls behind the server clock's progress by more than 1000 ms: clock difference and delay from reading to EVAL together |
| Gcra.HintNotTooLong | backend/insights_service/admission.py:125-131 | With the key unchanged, every attempt before now + wait is denied |
| Gcra.HintSufficesExactly | backend/insights_service/admission.py:125-131 | now + wait + 1 is granted if and only if the capacity is at least 1 |
| AcquireLoop.AcquireToken | backend/insights_service/admission.py:157-189 | Each retry starts once the hint of the denial before it is slept out, and no later than that takes. Terminates when each EVAL takes time; refuses exactly when the hinted wait of the last denial would pass the deadline, never earlier, and no sleep ends past a deadline that was still ahead; falls open on an error |
| AcquireLoop.NoDoomedRetry | backend/insights_service/admission.py:125-189 | No retry is sent while it is sure to be denied: with the key unchanged every clock reading up to the hint is denied, the retry's is past them, and one ms more is enough if the bucket can hold a token |
| AcquireLoop.RefusalIsFinal | backend/insights_service/admission.py:183-186 | After a refusal, with the key unchanged, every attempt that reads its clock later and whose reply, taking as long, would come by the deadline is denied |
| AcquireLoop.GrantedFrom | backend/insights_service/admission.py:108-136 | With the key unchanged the first grant after a denial comes exactly ceil(TAT + emission - now - dvt) ms after its clock reading, and never if the bucket can hold no token |
| AcquireLoop.RefusalFinalExactly | backend/insights_service/admission.py:157-186 | No attempt that reads its clock by the deadline would be granted after a denial if and only if the bucket can hold no token or that first grant comes after the deadline |
| AcquireLoop.PrematureExactly | backend/insights_service/admission.py:183-186 | A refusal of the loop is premature if and only if the bucket can hold a token and the first grant comes by the deadline; the EVAL then took longer than the deadline leaves after that grant |
| AcquireLoop.SlowEvalGivesUpEarly | backend/insights_service/admission.py:183-186 | One such refusal: an EVAL of 100 ms, a hint of 50 ms and a deadline of 120 ms |
| AdmissionController.OutcomesConserved | backend/insights_service/admission.py:349-477 | Per provider and outcome kind, for any interleaving of reports, concurrent drains, commits and failed commits: table + buffer + all snapshots under way = reported |
| AdmissionController.StreakCountsFailures | backend/insights_service/admission.py:349-374 | In any run the in-memory streak is the number of failures reported since the last success |
| AdmissionController.StreaksStayFresh | backend/insights_service/admission.py:349-374 | Every step but a failed commit keeps each buffered streak equal to the in-memory one |
| AdmissionController.FoldBackFreshExactly | backend/insights_service/admission.py:465-477 | A fold-back keeps the buffered streaks right if and only if no streak of the snapshot changed since the swap |
| AdmissionController.StaleStreakReachesTable | backend/insights_service/admission.py:465-477 | Where commits may fail: a run after which the table shows a streak of 1 although the last call succeeded and all is flushed |
| AdmissionController.OvertakenStreakReachesTable | backend/insights_service/admission.py:407-464 | Where drains may overlap, as the shutdown drain may the flush loop's: the same end with no failing commit, when an older snapshot commits last |
| AdmissionController.StreaksSettleExactly | backend/insights_service/admission.py:349-477 | Once everything of a provider is flushed its streak in the table is the in-memory one, in every run of an environment, if and only if commits do not fail there and drains do not overlap |
| AdmissionDurations.DurationsSettleExactly | backend/insights_service/admission.py:349-477 | Once everything is flushed the table shows each provider's duration as of its last report, in every run of an environment, if and only if drains do not overlap: unlike the streak it survives failed commits, because a fold-back keeps the newer one |
| AdmissionDurations.OldDurationComesLast | backend/insights_service/admission.py:407-464 | Where drains may overlap a run ends with the older of two durations in the table |
| AdmissionDurations.FlushKeepsDuration | backend/insights_service/admission.py:438-452 | A flush without a duration leaves the table's, whoever wrote it |
| AdmissionController.AdmissionController.RecordLatency | backend/insights_service/admission.py:274-285 | Is the Latency step; a negative duration is ignored |
| AdmissionController.AdmissionController.ReportSuccess | backend/insights_service/admission.py:319-324 | Is the Report step with success |
| AdmissionController.AdmissionController.ReportFailure | backend/insights_service/admission.py:326-347 | Is the Report step with failure |
| AdmissionController.AdmissionController.BeginDrain | backend/insights_service/admission.py:407-416 | Swaps the buffer for an empty one and hands over the old one |
| AdmissionController.AdmissionController.FinishDrain | backend/insights_service/admission.py:417-477 | Is the Commit step, or the fold-back step when nothing was committed |
| AdmissionController.Upsert | backend/insights_service/admission.py:424-464 | The loop of upserts adds every non-empty delta to its row once and touches no other row |
| AdmissionController.FoldBack | backend/insights_service/admission.py:465-476 | The fold-back loop adds every snapshot to what the buffer holds by then |
| RefreshRotation.AcceptedOnce | backend/auth_service/refresh.py:36-64 | Over every run of logins, refreshes, logouts, user changes, faults and expiries, with raised writes kept or rolled back, no jti is accepted twice (one rotation check at a time) |
| RefreshRotation.OneAcceptablePerFamily | backend/auth_service/service.py:164-191 | In every reachable state a family has at most one token that would be accepted |
| RefreshRotation.SuccessorTakesOver | backend/auth_service/service.py:164-191 | After an accepted refresh the acceptable tokens of the family are exactly the minted successor |
| RefreshRotation.DeadExactly | backend/auth_service/refresh.py:50-58 | A family has no acceptable token if and only if no run from here accepts one of its tokens, whatever requests, faults and re-activations follow |
| RefreshRotation.YieldsExactly | backend/auth_service/service.py:157-194 | A presented token is accepted if and only if it is unspent in a live family, its user is active, and the session goes through |
| RefreshRotation.VerdictExactly | backend/auth_service/refresh.py:36-64 | In production, over any run: revoked means the family was logged out, reuse means the token was accepted before, and only then does the user's status count |
| RefreshRotation.InactiveGetNothing | backend/auth_service/service.py:176-180 | From a deactivation until the user is active again, no run accepts a token of the user |
| RefreshRotation.InactiveKillsExactly | backend/auth_service/service.py:176-180 | Presenting a token of an inactive user ends its family for good if and only if raised writes are kept or the family was dead |
| RefreshRotation.DeactivatedIsRefused | backend/auth_service/service.py:176-180 | A run: login, deactivation, and the unspent token is refused as user_inactive |
| RefreshRotation.LogoutKills | backend/auth_service/service.py:140-155 | After a logout that returns no run accepts a token of the family |
| RefreshRotation.RefusalKillsExactly | backend/auth_service/service.py:164-183 | A refusal (reuse, revoked family, inactive user) ends the family for good if and only if raised writes are kept or the family was dead before |
| RefreshRotation.ReplayedFamilyLivesOn | backend/app/db/engine.py:252-286 | The run production allows: a replayed token is detected and refused, the revocation is rolled back with the raise, and the successor is accepted |
| RefreshRotation.SentinelIsNoJti | backend/app/db/repositories/refresh_token_repo.py:30-38 | A family's sentinel row is no minted jti and no other family's sentinel |
| RefreshRotation.LocalIdentityService.constructor | backend/auth_service/service.py:58-85 | Starts with no rows, users or tokens |
| RefreshRotation.LocalIdentityService.CheckAndRecordRotation | backend/auth_service/refresh.py:36-64 | Each verdict exactly in its case, with exactly its row written |
| RefreshRotation.LocalIdentityService.Login | backend/auth_service/service.py:107-139 | Starts a new family for an admitted user, and changes nothing otherwise |
| RefreshRotation.LocalIdentityService.Refresh | backend/auth_service/service.py:157-194 | Is the Refresh step of the state machine; a successor is returned exactly when the step yields |
| RefreshRotation.LocalIdentityService.Logout | backend/auth_service/service.py:140-155 | Is the Logout step; an unreadable token changes nothing |
| RefreshOverlap.AcceptedOnce | backend/auth_service/refresh.py:50-63 | With check and insert as separate steps, among logins, logouts, refusals and user changes: no jti is accepted twice in any run whose checks of one jti do not overlap |
| RefreshOverlap.AloneIsAtomic | backend/auth_service/refresh.py:36-64 | Check and record with nothing in between are the atomic refresh: same verdict, rows and successor; a check that passes and is abandoned is the refresh whose commit fails |
| RefreshOverlap.OnceExactly | backend/app/db/repositories/refresh_token_repo.py:68-89 | At-most-once acceptance holds over all runs if and only if checks of one jti do not overlap, since the insert swallows the duplicate key |
| RefreshOverlap.OnePerFamilyExactly | backend/auth_service/service.py:164-191 | A family has at most one token that would be accepted, in every reachable state, if and only if checks of one jti do not overlap |
| TimeoutMiddleware.NothingAfterTerminal | backend/app/main.py:913-927 | For arbitrary inner sends, torn or not, and any ending: nothing follows a terminal body and there is at most one (T-3, T-4, T-6) |
| TimeoutMiddleware.ClosesExactly | backend/app/main.py:1049-1110 | For every legal inner prefix and every ending: the wire is the inner trace unchanged, then the closing; one start, well formed; complete if and only if the app finished or the deadline fired; status the app's if started, else 504 (T-2) |
| TimeoutMiddleware.OneTerminalExactly | backend/app/main.py:913-914 | T-1 holds if and only if the app finished its response or the deadline fired |
| TimeoutMiddleware.TornSendClosesExactly | backend/app/main.py:1058-1070 | If the deadline cancels the app inside a send, the response is well formed and complete if and only if the message was neither the start nor the terminal body |
| TimeoutMiddleware.StreamPasses | backend/app/main.py:1049-1110 | A streamed response passes chunk by chunk, whole if it ends by itself, and closed off where the deadline cuts it |
| TimeoutMiddleware.TransparentExactly | backend/app/main.py:1049-1110 | The middleware changes nothing on the wire if and only if the deadline does not find the app unfinished and the app is quiet after its first terminal body |
| TimeoutMiddleware.BypassedRelays | backend/app/main.py:1016-1028 | On a bypassed path everything the app sends goes out, whatever its order and ending |
| TimeoutMiddleware.NotReadyAnswers | backend/app/main.py:1030-1047 | Before startup is over a timed request gets one whole 503 response and nothing of the app |
| TimeoutMiddleware.Exchange.TrackedSend | backend/app/main.py:1058-1070 | Drops everything once terminal; otherwise moves the flags and relays the message unless the send is torn |
| TimeoutMiddleware.Exchange.RunApp | backend/app/main.py:1072-1074 | The relayed messages are those up to the first terminal one, and the flags say which kinds were attempted |
| TimeoutMiddleware.Exchange.Call | backend/app/main.py:1016-1110 | The wire is the relayed part followed by the closing the theorems are about; bypassed and not-ready requests as well |
| Backfill.BackfillChunk | backend/scripts/backfill_aggregated_levels.py:106-133 | Stamps min(limit, stale) stale edges in place, whichever the database picks, and touches no other |
| Backfill.Backfill | backend/scripts/backfill_aggregated_levels.py:231-254 | Terminates; for any batch size >= 1 every stale edge is stamped once, fresh ones are untouched, the running total is the initially stale count and the chunks are as few as can be plus the empty one; a batch size of 0 stamps nothing |
| Backfill.ChunkIsStep | backend/scripts/backfill_aggregated_levels.py:106-133 | Whatever a chunk does to the graph is one step of the run machine |
| Backfill.RunKeepsHonest | backend/scripts/backfill_aggregated_levels.py:74-105 | Over any sequence of chunks of any runs with any maps, new edges and deletions, a stamp with a map's digest holds that map's levels, -1 for unknown labels |
| Backfill.HonestExactly | backend/app/services/ontology_levels.py:114-131 | Stamps are right over all runs if and only if the digest tells apart maps that differ on some label |
| Backfill.FilterAfterBackfill | backend/scripts/backfill_aggregated_levels.py:1-40 | After a run the level-pair filter selects exactly the edges whose labels have those levels in the run's map |
| Backfill.DocumentedExactly | backend/scripts/backfill_aggregated_levels.py:26-30 | The stamp is the one the header describes (both levels -1 if either label is unknown) if and only if both labels are known, or neither, or the known one's level is -1 |
| Backfill.UnknownIsNoLevel | backend/scripts/backfill_aggregated_levels.py:83-112 | With a map of real levels (none negative), a stamp is a real level if and only if the label is in the map, and then it is the map's |
| ColumnLineage.BuildColumnLineage | backend/scripts/add_column_lineage.py:131-245 | Every edge is a link the rules allow, no id repeats, at most max_edges; and unless thinning or the cap cut some off, the id of every allowed link to a higher layer is there; for every node list and every random choice |
| ColumnLineage.IdsTellLinksApart | backend/scripts/add_column_lineage.py:217-220 | Where URNs hold no bar an id stands for one pair of URNs, so a known id means the link itself is there |
| ColumnLineage.LinkSchemas | backend/scripts/add_column_lineage.py:189-243 | Every column of the source schema has its first match in its asset linked, or is cut off by cap or thinning |
| ColumnLineage.Group | backend/scripts/add_column_lineage.py:153-176 | The grouping loops build the dictionary of sublists, each key once, in order of first use |
| ColumnLineage.LinksClimb | backend/scripts/add_column_lineage.py:177-200 | Over any node list with colon-free domains, each link stays in its domain and asset and strictly raises the layer rank; and so over colon-free platforms when no domain continues another one after a colon |
| ColumnLineage.BoundedDag | backend/scripts/add_column_lineage.py:177-243 | Over the same lists a walk along the edges has at most 6 edges and never returns to its start |
| ColumnLineage.EdgesNeverRepeat | backend/scripts/add_column_lineage.py:217-243 | No (source, target) pair of URNs repeats; a source column has at most one edge per target schema, and so has a source URN when no two columns share one |
| ColumnLineage.ClimbExactly | backend/scripts/add_column_lineage.py:165-200 | With the code's own rules of names, any matcher that accepts columns of one name, and colon-free platforms: every link of every node list over a set of domain names climbs if and only if no name with a colon has its part before the first one in the set |
| ColumnLineage.ClimbAnyPlatformExactly | backend/scripts/add_column_lineage.py:165-200 | The same for any platforms: if and only if, besides, every such name ends in `schemaField` behind its first colon, for then no URN can name the schema path the layer table is asked for |
| ColumnLineage.AliasGoesBackwards | backend/scripts/add_column_lineage.py:146-176 | For any other name with a colon: a platform with a colon makes the table find the domain's mart and not its raw layer, and the link goes from the one to the other |
| ColumnLineage.ClashGoesBackwards | backend/scripts/add_column_lineage.py:169-176 | For any two names that clash, the link from the mart of the one to the raw layer of the other |
| ColumnLineage.CodeIsSensible | backend/scripts/add_column_lineage.py:43-67 | The code's parser gives parts without dots and its layer rule always gives a layer |
| ColumnLineage.UrnParses | backend/scripts/add_column_lineage.py:52-67 | A schema-field URN written from its parts is parsed back into them |
| ColumnLineage.InferredExactly | backend/scripts/add_column_lineage.py:31-49 | A schema is on a layer if and only if that is the first one of the order with a pattern in the lower-cased name, and unknown if and only if no pattern is in it |
| ColumnLineage.CaseDoesNotMatter | backend/scripts/add_column_lineage.py:43-49 | Names that differ in the case of ASCII letters only are on the same layer |
| ColumnLineage.RankIsPlace | backend/scripts/add_column_lineage.py:182-186 | Layers sort by their place in LAYER_ORDER, anything else after them |
| ColumnLineage.PipelineClimbs | backend/scripts/add_column_lineage.py:31-49 | Schemas called raw, staging, core, analytics, mart and report are on these layers and rank in this order |
| ColumnLineage.PipelineLinks | backend/scripts/add_column_lineage.py:177-243 | Of two matching columns of one asset and domain in two of these schemas, the earlier one feeds the later one and never the other way round |
| SolidatusImport.InferEntityTypes | backend/scripts/import_solidatus.py:75-120 | Every entity gets the type of the rules, for any document |
| SolidatusImport.PrefixExactly | backend/scripts/import_solidatus.py:55-73 | An id has the type of LYR, OBJ, GRP or ATR if and only if the part before its first dash is that prefix, in either case; then it has it wherever it stands |
| SolidatusImport.PrefixedUrn | backend/scripts/import_solidatus.py:55-138 | The text of a URN names the type that PREFIX_TO_TYPE gives for the id's prefix, for entities and placeholders alike |
| SolidatusImport.UnprefixedUrn | backend/scripts/import_solidatus.py:75-138 | Without a known prefix the text says attribute for a placeholder, layer for a root, and for other entities attribute, object or group by children and parent |
| SolidatusImport.RootsCountWithoutLayers | backend/scripts/import_solidatus.py:146-176 | The document's roots matter only when it names no layers |
| SolidatusImport.TransitionAdds | backend/scripts/import_solidatus.py:197-234 | A transition that lacks an end adds nothing; another one adds its edge and those of its ends that are no entities |
| SolidatusImport.RootChildIsObjectExactly | backend/scripts/import_solidatus.py:110-113 | A root's child without known prefix is an object if and only if it has children; the documentation says always |
| SolidatusImport.ReorderKeepsTypeExactly | backend/scripts/import_solidatus.py:91-120 | For any two orders of a document, children with several listers included, an entity's type is the same if and only if it does not depend on the parent (prefix, root, childless), or the entity counts as a layer's child in both orders or in neither |
| SolidatusImport.SeesLayerExactly | backend/scripts/import_solidatus.py:91-113 | An entity counts as a layer's child exactly when its last lister in the document is a root or a layer that stands before it, or nobody lists it and an entity "" does |
| SolidatusImport.OrderIndependentExactly | backend/scripts/import_solidatus.py:91-120 | The type is the same in every order of the document if and only if it does not depend on the parent, or all listers are roots, or none of them can make the entity a layer's child |
| SolidatusImport.SolidatusGraphBuilder.constructor | backend/scripts/import_solidatus.py:130-134 | An empty builder |
| SolidatusImport.SolidatusGraphBuilder.GetOrCreateUrn | backend/scripts/import_solidatus.py:140-144 | The first URN of an id is kept |
| SolidatusImport.SolidatusGraphBuilder.Build | backend/scripts/import_solidatus.py:146-234 | Nodes and edges of a fresh builder are those of the document |
| SolidatusImport.RenderInjective | backend/scripts/import_solidatus.py:136-138 | The text of a URN determines type and id |
| SolidatusImport.UrnsDistinct | backend/scripts/import_solidatus.py:146-215 | No two nodes have the same URN text |
| SolidatusImport.GraphIsClosed | backend/scripts/import_solidatus.py:178-234 | Both ends of every edge are URNs of created nodes |
| SolidatusImport.NodeCount | backend/scripts/import_solidatus.py:156-215 | Nodes number entities plus distinct external ids that two-ended transitions name |
| SolidatusImport.EdgeCounts | backend/scripts/import_solidatus.py:178-234 | HAS edges number the resolvable child references, FLOWS_TO edges the two-ended transitions |
| JobProtocol.QueueStep | backend/insights_service/redis_streams.py:155-165 | In every step the log only grows, a message is delivered for the first time once, delivery counts never fall, and what has left the pending list never comes back to it |
| JobProtocol.ShapeAlways | backend/insights_service/worker.py:176-228 | Over every run the structural invariants hold that tie tasks to deliveries, pending entries to the log and DLQ rows to messages |
| RedisStreams.TrimOne | backend/insights_service/redis_streams.py:524-549 | One stream's XPENDING check and XTRIM have the outcome that TrimKeepsPending is about |
| Gcra.GrantedWhen | backend/insights_service/admission.py:115-128 | A request is granted exactly when the debt plus one emission fits into the tolerance |
| AdmissionController.StepConserves | backend/insights_service/admission.py:349-477 | Each single step changes the total by exactly what it reports |
| AdmissionController.AdmissionController.PersistOutcome | backend/insights_service/admission.py:349-374 | One delta counted, streak and last duration overwritten |
| RefreshRotation.RunChained | backend/auth_service/service.py:107-194 | Over every run jtis stay unique, a family keeps one user and has one acceptable token at most |
| RefreshOverlap.BothGoThrough | backend/app/db/repositories/refresh_token_repo.py:68-89 | Two overlapping refreshes of one token are both accepted, and leave two tokens of the family that will be |
| Backfill.SharedDigestMisleads | backend/app/services/ontology_levels.py:114-131 | Two maps with one digest and different levels: one ingested edge and one chunk make a wrong stamp |
| ColumnLineage.LinkColumn | backend/scripts/add_column_lineage.py:211-243 | The first match is linked unless its id is known already |
| ColumnLineage.LinkAsset | backend/scripts/add_column_lineage.py:205-243 | Each column of the asset is linked, drawn out or cut off by the cap |
| ColumnLineage.LinkDomain | backend/scripts/add_column_lineage.py:177-190 | All pairs of schemas with rising layers are dealt with |
| ColumnLineage.TableHolds | backend/scripts/add_column_lineage.py:146-160 | The layer table has the right layer for every column's schema path |
| SolidatusImport.TypeLayerExactly | backend/scripts/import_solidatus.py:100-118 | Only a known prefix or a place among the roots makes a layer |
| SolidatusImport.SolidatusGraphBuilder.AddEntities | backend/scripts/import_solidatus.py:156-176 | One node and one URN for every entity |
| SolidatusImport.SolidatusGraphBuilder.AddContainment | backend/scripts/import_solidatus.py:178-196 | Appends the containment edges and no URN |
| SolidatusImport.SolidatusGraphBuilder.AddTransitions | backend/scripts/import_solidatus.py:197-234 | Appends the flow edges, with a placeholder for every new external id |
| SolidatusImport.ContainmentIs | backend/scripts/import_solidatus.py:178-196 | A containment edge is exactly one from an entity to a child |
| SolidatusImport.FlowsAre | backend/scripts/import_solidatus.py:197-234 | A flow edge is exactly one of a two-ended transition |

## Left out

- Liveness: recovery is a step that only a starting worker takes, and no theorem says that a pending message is handled in the end.
- Provider calls inside handlers, and the purge's chunked deletion, its checkpoints and the cancel registry: a handler ends in success, soft retry, admission denial or failure, nondeterministically.
- JobProtocol.Run: a trimmed pending entry leaves the modelled pending list at once and is recorded as lost, where Redis keeps a dangling reference until the next claim.
- PurgeRows.PurgeLeavesOnlySettled: says nothing about what another worker does to a resumed row.
- Envelopes.ProtocolSeesFields: is stated for messages whose kind is their stream's, which producers guarantee; other kinds are in `RedriveKeepsMeaningExactly`.
- RedisStreams.RedisStreams.RedriveDlqEntry: is one call without interleaving; redrives that overlap are in `JobProtocol`.
- ColumnLineage.LinksClimb: among lists that mix domains with a colon and platforms with one, only whole sets of domains are decided (`ClimbAnyPlatformExactly`), not single lists.
- ColumnLineage.EdgesNeverRepeat: counts edges of a source URN only when no two columns share one; a node list that repeats a URN with other names can give it two.
- ColumnLineage.BuildColumnLineage: links whose URNs hold a bar may share an id, and then only one of them is there; edge attributes other than ends and layers (confidence, transform text, the id cut to 200 characters) are not modelled.
- AcquireLoop.AcquireToken: needs each EVAL to take at least one clock tick; with none the loop need not end.
- Backfill.Backfill: no edge changes during a run; concurrent writes between chunks are in the run machine, without a count.
- TimeoutMiddleware.Exchange.Call: the middleware's own sends are delivered; a client that is gone by then sees nothing either way. Path tiers and the event-stream registry are one input, the route.
- Scheduler ticks (`_is_due`, `_tick`): further producers, covered as producer steps.
- JWT encoding, password hashing, cookies, outbox events, rate limits and garbage collection of revocation rows.
- Derivation of level maps from an ontology (`derive_level_map`): the backfill takes any map.
- Log lines, metrics, health endpoints, drivers of Redis, Postgres, FalkorDB and Neo4j, the seeders and the frontend.

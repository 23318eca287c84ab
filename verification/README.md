# Verified model of the notification service

The service accepts HTTP notifications, stores each as a row of `notification_task`, and delivers it at
least once through a transactional outbox, a message broker, any number of workers and a recovery loop.
MariaDB is the only authority: every decision is a conditional update fenced by a dispatch generation, a
lease token and a lease time. This project models that protocol and the components around it, and proves
what they promise over every run.

`dafny verify dfyconfig.toml` checks everything.

## How the model is built

- **Tables and transactions.** `Domain` has the rows, `Transactions` has each SQL transaction as a guard (its
  WHERE clause and unique keys) and a function on the database. `Store` is `business.Store` as a class whose
  methods update the tables statement by statement; each is proved against its transaction, including the
  case where nothing matches.
- **Delivery protocol.** `Protocol` is one transition system: tables, a broker that may lose, delay and
  duplicate messages, and agents. An agent is the program counter of `Worker.Process`, `Dispatcher.Run` or
  `Loop.step`, with the possibly stale row it holds. Agents interleave at every transaction, clock reading
  and external call, and may crash between any two. `Programs` has the same functions as sequential methods
  over the store, and proves that each undisturbed call is a run of the transition system.
- **Invariants.** `Fencing` is inductive for arbitrary clock readings. `Timing` adds one shared clock.
  `Frames` says what a step leaves alone. `Guarantees` and `TimedGuarantees` state what follows for reachable
  states and runs, and `FinalStates` what the status says about the last attempt. `Recoverability` builds,
  from any reachable state, the run that brings a notification to its next claim or its end, `Sweeps` says
  what a recovery sweep achieves among the steps of all others, and `RefusedRecovery` exactly when a
  recovered lease does not go back to `pending`.
- **Around it.** `RetrySchedule` (the scheduler), `RecoveryLoop` (one sweep over the store), `QuotaScripts` and
  `ConcurrencyCap` (the Lua scripts and the cap they enforce on running deliveries), `LocalLimiter` (the
  in-process counters on shared heap cells), `Base64`, `Utf8` and `Normalize` (the hashed form of a request),
  `Submission` (concurrent accepts interleaved with the protocol), `Identifiers`, `Cursor`, `Pagination` and
  `LivePagination` (identifiers and keyset pagination).

## Assumptions

- A database transaction is atomic, and `NewID` returns a value never returned before.
- A configuration revision is immutable, and the history holds the revision of every accepted row.
- Fencing results hold for arbitrary clock readings. Timing results use one clock, in nanoseconds, that never
  runs backwards and that transactions and Go code share; `Process` keeps its 45 s context and a turn of the
  dispatcher its 10 s context, in the sense that no HTTP call or publish outlives them.
- The broker keeps a message at least for the time to live of its queue. Anything else may happen to it.
- The adapter and the hook return arbitrary decisions. An adapter called with an expired context returns one
  without an HTTP call. The worker has a gate, as `cmd/notifier/main.go:88` builds it.
- The Redis lock is an arbitrary refusal, which acknowledges and drops the trigger.
- The Redis server clock never runs backwards. The concurrency cap is for fixed positive limits and
  successful script calls; releases may be lost. There the Redis clock, the Go clock of the 45 s context and
  the database clock are one.
- Request hashes are compared as the code does. Where a result speaks of equal requests instead of equal
  hashes, it asks that the two hashes do not collide.

## Where the code differs from its design text

- `docs/design.md:989` says that a recovered lease goes back to `pending` with a new outbox row. In the code it
  does so if and only if the scheduler's guard holds: retries are on, uncertain retries are allowed, the cycle
  has attempts left, and the next delay ends before the deadline (`RecoveredLeaseReturnsIff`). Otherwise the
  row goes to `failed`, one generation further and without an outbox row
  (`internal/repository/business/recovery.go:31-60`). `EveryGenerationHasARowIff` states what that means for
  whole runs, and `RefusalHappens` is a run in which it happens.
- `docs/design.md:676` says that the dispatcher claims rows in batches. The code claims one row per turn.

## Model

| member | source | states |
|---|---|---|
| RetrySchedule.ScheduleRetry | internal/retry/policy.go:15-57 | the scheduler as written, step by step, computes the plan that the lemmas below characterise |
| RetrySchedule.ScheduleExact | internal/retry/policy.go:15-57 | a retry with bucket b is granted if and only if retries are on, uncertainty is allowed, attempts remain, b is the least bucket at or above the policy delay and any respected Retry-After, and now + b is strictly before the deadline; the route names b; otherwise the action is fail |
| RetrySchedule.WaitIsIdeal | internal/retry/policy.go:28-41 | seconds that pass the limit do not wrap as an int64 duration, and the wait is the ideal one unless both exceed every bucket |
| RetrySchedule.ScheduledBucket | internal/retry/policy.go:42-51 | the scanned bucket is the least one for the ideal wait, and none is found exactly when there is none |
| RetrySchedule.ScheduleBounds | internal/retry/policy.go:42-56 | for any policy, validated or not: a granted time is now plus a positive bucket, before the deadline |
| RetrySchedule.ScanBuckets | internal/retry/policy.go:42-48 | the loop stops at the first bucket that is long enough |
| RetrySchedule.RoutingKeysDistinct | internal/config/model.go:116-125 | routing keys tell all routes apart and none is empty |
| RetrySchedule.BucketRouteScan | internal/config/model.go:118-125 | every bucket finds its own name in the table |
| Store.Store.ByKey | internal/repository/business/store.go:50-52 | the row of a client and key, or not found when there is none |
| Store.Store.Accept | internal/repository/business/store.go:53-94 | inserts row and first event together; otherwise nothing changes and the answer is the row with the key, a conflict, or not found after a clash of identifiers |
| Store.Store.Claim | internal/repository/business/delivery.go:14-44 | lease and attempt row together, or no change; a duplicate attempt number rolls the lease back |
| Store.Store.Finish | internal/repository/business/delivery.go:48-97 | the fenced end of an attempt, or no change and a stale-lease error |
| Store.Store.DeferPending | internal/repository/business/delivery.go:100-125 | next generation, later time and its trigger together, or no change |
| Store.Store.UpdateAttempt | internal/repository/business/delivery.go:84-87 | writes the attempt with this number and token, and no other |
| Store.Store.Expired | internal/repository/business/recovery.go:9-24 | the first hundred expired leases by lease time, all of them if fewer |
| Store.Store.RecoverLease | internal/repository/business/recovery.go:25-62 | the fenced recovery of an expired lease, or no change |
| Store.Store.RecoverOutbox | internal/repository/business/recovery.go:63-66 | resets abandoned rows only, all of them up to a thousand |
| Store.Store.Stale | internal/repository/business/recovery.go:77-101 | the first hundred due rows without a live trigger, by next time |
| Store.Store.Reconcile | internal/repository/business/recovery.go:71-113 | the first hundred stale rows each get their next generation and a trigger for it, in one transaction |
| Store.Store.ReconcileRows | internal/repository/business/recovery.go:102-111 | the loop over the listed rows, one after the other |
| Store.Store.ManualRetry | internal/repository/business/recovery.go:114-139 | a new cycle for a failed row of this client and generation, or no change |
| Store.Store.ClaimOutbox | internal/repository/business/outbox.go:9-33 | leases the first ready row by (available_at, id), or there is no ready row |
| Store.Store.Published | internal/repository/business/outbox.go:34-47 | published exactly under the current token and an unexpired lease |
| Store.Store.ReleaseOutbox | internal/repository/business/outbox.go:48-51 | back to waiting exactly under the current token |
| Selection.OrderByLimit | internal/repository/business/recovery.go:10 | ORDER BY with LIMIT k: k least elements in order, or all |
| Selection.FirstIsExpiredList | internal/repository/business/recovery.go:9-24 | the k least lease times are a result of the query for expired leases |
| Selection.FirstIsStaleList | internal/repository/business/recovery.go:77-101 | the k least next times are a result of the query for stale rows |
| Selection.ReconcileRows | internal/repository/business/recovery.go:102-111 | after the loop every listed row is exactly one generation further with its trigger in the outbox, and no other row changed |
| Selection.StaleAfter | internal/repository/business/recovery.go:77-111 | reconciled rows are no longer stale, and no row becomes stale by it |
| Protocol.ReconcileAllIsReconcile | internal/repository/business/recovery.go:102-111 | the transition with its history changes the tables as the transaction does |
| Ledger.AttemptsAfterClaim | internal/repository/business/delivery.go:21-39 | a claim extends the attempt numbering by exactly one, with a larger generation |
| Ledger.AttemptsAfterClose | internal/repository/business/delivery.go:84-87 | closing the attempt in flight keeps the attempt ledger, for Finish and RecoverLease alike |
| Ledger.OutboxAfterAppend | internal/repository/business/store.go:95-103 | a new generation with its row keeps one row per generation and the row count |
| Ledger.OutboxAfterSame | internal/repository/business/recovery.go:53-60 | a new generation without a row is exactly one more failed recovery |
| Fencing.SubmitFenced | internal/repository/business/store.go:53-94 | an accept keeps the invariant |
| Fencing.ClaimFenced | internal/repository/business/delivery.go:14-44 | a claim from a possibly stale snapshot keeps the invariant and every other agent's snapshot valid |
| Fencing.FinishFenced | internal/repository/business/delivery.go:48-97 | an end of attempt from a possibly stale snapshot keeps the invariant |
| Fencing.DeferFenced | internal/repository/business/delivery.go:100-125 | a deferral from a possibly stale snapshot keeps the invariant |
| Fencing.RecoverFenced | internal/repository/business/recovery.go:25-62 | a recovery from a possibly stale list keeps the invariant |
| Fencing.ReconcileFenced | internal/repository/business/recovery.go:71-113 | a reconciliation of up to a hundred rows keeps the invariant |
| Fencing.RetryByHandFenced | internal/repository/business/recovery.go:114-139 | a manual retry keeps the invariant and the attempt budget |
| Fencing.TakeFenced | internal/repository/business/outbox.go:9-33 | a claim of an outbox row keeps the invariant |
| Fencing.PublishedFenced | internal/repository/business/outbox.go:34-47 | marking a row published keeps the invariant, whoever holds the row by then |
| Fencing.ReleaseFenced | internal/repository/business/outbox.go:48-51 | giving a row back keeps the invariant, whoever holds the row by then |
| Fencing.SweepOutboxFenced | internal/repository/business/recovery.go:63-66 | resetting abandoned rows keeps the invariant |
| Fencing.AgentKept | internal/delivery/worker.go:35-145 | what an agent holds stays a legal snapshot whatever the other agents do |
| Fencing.StepFenced | internal/delivery/worker.go:35-145 | every step of every agent, with any clock reading, keeps the invariant; identities never change, generations never fall, outcomes, leases and published rows never come back |
| Fencing.RunFenced | internal/delivery/worker.go:35-145 | the same over every run |
| Guarantees.StepEffect | internal/repository/business/delivery.go:65 | a step takes away a lease only from its own holder before the lease ends, or from anybody after it |
| Guarantees.AttemptLedgerKept | internal/repository/business/delivery.go:14-97 | attempts are numbered exactly 1..attempt_count; an unfinished one exists iff the row is in flight, is the last, and carries its lease token |
| Guarantees.OutcomeWrittenOnce | internal/repository/business/recovery.go:49 | a finished attempt never changes again, in any continuation |
| Guarantees.WhoClosesAnAttempt | internal/repository/business/delivery.go:65-87 | an attempt is closed by Finish of its claimer before the lease ends, with its decision, or by RecoverLease after the lease, as unknown; never by both and by nothing else |
| Guarantees.FinishExcludesRecovery | internal/repository/business/recovery.go:38 | Finish is possible iff the clock is before the end of the lease, recovery iff after it; at that instant neither |
| Guarantees.OneClaimPerGeneration | internal/repository/business/delivery.go:21 | attempt generations strictly increase, and a pending row is ahead of all its attempts |
| Guarantees.TasksOnlyAdvance | internal/repository/business/delivery.go:54-65 | delivered is absorbing, generations and attempt counts never fall, identities never change |
| Guarantees.OneManualRetryWins | internal/repository/business/recovery.go:121-131 | of any number of concurrent manual retries from one failed state exactly one wins |
| Guarantees.OutboxLedgerKept | internal/repository/business/recovery.go:53-60 | a pending row has its trigger; no generation has two rows; none is ahead; generation minus rows equals the recoveries that ended in failed |
| Guarantees.RowsAndFailures | internal/repository/business/recovery.go:53-60 | every generation has had its outbox row exactly when none of the row's recoveries ended in failed |
| RefusedRecovery.RecoveredLeaseReturnsIff | internal/recovery/loop.go:56-58 | a recovered lease goes back to pending with exactly one new outbox row iff retries are on, uncertain ones allowed, attempts left and the next delay ends before the deadline; otherwise failed, a generation further, outbox unchanged |
| RefusedRecovery.RunCounts | internal/repository/business/recovery.go:31-60 | over every run the failed recoveries of a row are exactly those the guard refused |
| RefusedRecovery.EveryGenerationHasARowIff | internal/repository/business/recovery.go:31-60 | over every run from the empty system, every generation of a row has had its outbox row iff the guard refused none of its recoveries |
| RefusedRecovery.RefusalHappens | internal/repository/business/recovery.go:31-60 | a run in which a recovery is refused, and the second generation has no outbox row |
| Guarantees.PublishedIsConfirmedAndFinal | internal/outbox/dispatcher.go:18-33 | a row becomes published only by Published of the dispatcher holding its current token, before the lease ends, after the broker confirmed that row's message under that very token; and it never changes again |
| Guarantees.AckIsTheHolders | internal/outbox/dispatcher.go:23-25 | a confirmation is recorded only by the dispatcher that drew the token, after it sent the message of its row |
| Guarantees.StaleDispatcherChangesNothing | internal/repository/business/outbox.go:34-51 | once a token is off its row it stays off, and its Published and ReleaseOutbox change nothing |
| FinalStates.StatusTellsTheOutcome | internal/repository/business/delivery.go:48-97 | in every reachable state: delivered if and only if the last attempt was finished with success, and no other attempt was; failed only if the last attempt was finished with fail, or ended unknown and a recovery of the row was refused; a last attempt finished with fail leaves the task failed unless a manual retry made it pending again; in flight if and only if the last attempt is still open |
| FinalStates.StepOutcomes | internal/repository/business/recovery.go:25-62 | every step of every agent keeps the agreement between the status and the result of the last attempt |
| Guarantees.BoundedWork | internal/retry/policy.go:23-26 | per cycle at most len(Delays) attempts while pending and one more otherwise; in all at most (1 + manual retries) * (len(Delays) + 1) |
| Guarantees.DefersConsumeNothing | internal/repository/business/delivery.go:99-125 | deferrals and reconciliations consume no attempt |
| Timing.StepTimely | internal/delivery/worker.go:35-145 | every step keeps the timed invariant, and next times never fall |
| Timing.RunTimely | internal/delivery/worker.go:35-145 | the same over every run under one clock |
| TimedGuarantees.MutualExclusion | internal/delivery/worker.go:39-127 | no two Adapter.Deliver calls for one notification overlap, whatever duplicates, proxies, crashes and recoveries occur |
| TimedGuarantees.CallHoldsItsLease | internal/repository/business/delivery.go:10-21 | during a call the row is still claimed by it, with at least 15 s of lease left |
| TimedGuarantees.CallIsAdmitted | internal/delivery/worker.go:66-111 | every call starts with the gate acquired, the policy check passed and the current deadline ahead |
| TimedGuarantees.TriggersAreNeverEarly | internal/delivery/worker.go:48-53 | the not-before guard never drops a trigger of the current generation |
| TimedGuarantees.CurrentTriggerLeavesOnTime | internal/mq/rabbitmq/client.go:90-96 | available_at plus the queue's time to live is at least next_attempt_at, for the current row and the current message |
| TimedGuarantees.PublishersExclude | internal/outbox/dispatcher.go:18-33 | dispatchers never publish the same row at the same time |
| TimedGuarantees.DeferralsAreBounded | internal/delivery/worker.go:78-87 | k deferrals in one cycle satisfy 5 s * (k - 1) < MaxDuration |
| TimedGuarantees.ReconcilesAreApart | internal/repository/business/recovery.go:77-110 | two reconciliations of one row are at least a minute apart |
| TimedGuarantees.NextNeverDecreases | internal/repository/business/delivery.go:62-65 | next_attempt_at never decreases over a run |
| Recoverability.EverySweepLowers | internal/recovery/loop.go:39-65 | a sweep whose steps alternate only with the clock, whatever list its query returned, lowers the number of leases expired at its query by exactly min(100, count) |
| Sweeps.EverySweepClears | internal/recovery/loop.go:39-65 | a sweep whose process does not crash, interleaved with any steps of any other workers, dispatchers, clients and loops: when it is through, no row on its list is still held under the lease it had there, and of the leases expired at its query at least min(100, count) are gone and none was added |
| Recoverability.SweepLeases | internal/recovery/loop.go:39-65 | from every quiet state there is such a sweep, with outbox recovery, that leaves all other rows alone |
| Recoverability.DrainLeases | internal/recovery/loop.go:39-65 | repeated sweeps drain the expired leases |
| Recoverability.DrainAbandoned | internal/repository/business/recovery.go:63-66 | repeated sweeps drain the abandoned outbox rows |
| Recoverability.DrainStaleTo | internal/repository/business/recovery.go:71-113 | repeated reconciliations reach any given stale row |
| Recoverability.DrainTo | internal/repository/business/outbox.go:9-33 | dispatchers reach any given ready row, whatever is queued before it |
| Recoverability.WorkerClaims | internal/delivery/worker.go:35-88 | a worker that takes a due trigger of the current generation claims |
| Recoverability.NoTaskIsStuck | internal/recovery/loop.go:39-71 | from every reachable state each notification can reach a claim or a final state by clock ticks, sweeps, dispatchers and workers alone |
| Recoverability.NoTaskIsStuckAfterDisaster | internal/recovery/loop.go:39-71 | the same after the broker lost every message and every process died |
| Recoverability.FirstSubmissionIsClaimed | internal/repository/business/store.go:53-94 | from an empty system a submission is accepted, published, consumed and claimed: the runs spoken of exist |
| RecoveryLoop.Loop.RecoverLeases | internal/recovery/loop.go:43-65 | the loop as written, every transaction and plan reading the clock again, recovers min(100, count) leases, touches nothing else, and stops early only on a missing revision |
| RecoveryLoop.Loop.Step | internal/recovery/loop.go:39-71 | one sweep: leases expired at its query fall by min(100, count), and no stale row is left at its reconciliation unless a hundred were reconciled |
| Programs.Worker.Guards | internal/delivery/worker.go:41-87 | the guards are steps of the transition system; they admit only a due pending row of this generation and leave the tables alone unless they defer |
| Programs.Worker.Attempt | internal/delivery/worker.go:88-111 | claim and decision are steps of the transition system |
| Programs.Worker.Conclude | internal/delivery/worker.go:113-134 | plan and finish are steps of the transition system |
| Programs.Worker.Process | internal/delivery/worker.go:35-145 | an undisturbed call is a run of the transition system, and each counter counts exactly the attempts it ended |
| Programs.Dispatcher.Publish | internal/outbox/dispatcher.go:23-31 | a confirmed row is published while its lease runs, an unconfirmed one goes back |
| Programs.Dispatcher.Turn | internal/outbox/dispatcher.go:18-45 | an undisturbed turn is a run of the transition system that changes exactly the first ready row |
| QuotaScripts.Redis.RateScript | internal/quota/quota.go:17-30 | the script's loops compute the specified admission |
| QuotaScripts.Redis.EgressScript | internal/quota/quota.go:32-51 | the script's loops compute the specified admission, sweep included |
| QuotaScripts.Redis.ReleaseScript | internal/quota/quota.go:52 | removes the token from each key |
| QuotaScripts.AdmittedEffect | internal/quota/quota.go:42-50 | an admitted call counts once per rate key and holds one token per slot, at every later time |
| QuotaScripts.RejectedChangesNothing | internal/quota/quota.go:34-41 | a rejected call changes no counter and no live token, now or later |
| QuotaScripts.CountersAreExact | internal/quota/quota.go:24-47 | over any calls, a counter is the number of admissions in the current window; the 2 s expiry loses none |
| QuotaScripts.TokensAreExact | internal/quota/quota.go:38-52 | over any calls, live tokens are those admitted less than a minute ago and not released; the 65 s expiry loses none |
| QuotaScripts.WindowsAreCapped | internal/quota/quota.go:19-29 | no window admits more than the limit |
| QuotaScripts.IntervalsAreCapped | internal/quota/quota.go:19-29 | no interval of up to one second admits more than twice the limit |
| QuotaScripts.SlotsAreCapped | internal/quota/quota.go:38-50 | no slot holds more tokens than its limit |
| ConcurrencyCap.DeliveriesAreCapped | internal/quota/quota.go:111-148 | in every run of the delivery protocol whose gate asks the egress script, the Adapter.Deliver calls under way stay within the limit, per target and globally, lost releases and crashes included |
| ConcurrencyCap.PlayIsTimed | internal/delivery/worker.go:78-87 | those runs are runs of the delivery protocol under the shared clock |
| LocalLimiter.Limiter.Local | internal/quota/quota.go:85-110 | admits iff both counts are below their limits; a refusal leaves everything as it was |
| LocalLimiter.Limiter.Release | internal/quota/quota.go:101-109 | gives back exactly one slot through the captured cell; a second guarded call does nothing |
| LocalLimiter.Limiter.Acquire | internal/quota/quota.go:111-148 | every path that does not admit gives the local slot back |
| LocalLimiter.LimiterIsConsistent | internal/quota/quota.go:54-110 | active equals the sum of the counters equals the outstanding releases, both bounds hold, and each release still captures the map's cell |
| Base64.RoundTrip | internal/application/service.go:145-149 | decoding undoes encoding |
| Base64.LineBreaksAreIgnored | internal/application/service.go:145 | line breaks anywhere leave the decoded bytes as they are |
| Base64.SpellingsAreNotUnique | internal/application/service.go:149 | one byte string has several spellings, so the body must be encoded again |
| Utf8.ValidIsImage | internal/application/service.go:139-156 | a string is accepted iff it is the encoding of some sequence of scalar values |
| Normalize.CanonicalIffFold | internal/application/service.go:169 | header names have one canonical form iff they differ at most in case |
| Normalize.Draft.NormalizeBody | internal/application/service.go:133-159 | the body branch in place: accepts iff there are bytes of at most 1 MiB, and leaves their one spelling |
| Normalize.Draft.NormalHeaders | internal/application/service.go:163-175 | the loop over headers in any order: accepts iff each is fine and no two collide, and the total is exact |
| Normalize.Draft.QuerySize | internal/application/service.go:176-181 | the loop over query parameters in any order |
| Normalize.Draft.Normalize | internal/application/service.go:129-187 | accepts exactly the acceptable requests and leaves their normal form |
| Normalize.NormalIsCanonical | internal/application/service.go:129-187 | two accepted requests have one normal form iff they mean the same: equal bytes of the body however spelled, headers equal up to case |
| Normalize.NormalIsIdempotent | internal/application/service.go:129-187 | a normal form is accepted, is its own normal form and keeps the meaning |
| Normalize.AcceptanceFollowsMeaning | internal/application/service.go:160-184 | a request that means the same as an accepted one is accepted iff it names no header twice |
| Submission.SameFormIff | internal/application/service.go:47-61 | two submissions are hashed alike iff target, mode and meaning agree |
| Submission.StepSound | internal/application/service.go:62-113 | every step of every call, and every step of the protocol, keeps the tables equal to the map that the answered operations leave |
| Submission.AcceptIsAtomic | internal/repository/business/store.go:53-94 | in every interleaving the answered calls are a serial history of one atomic map, each with its own single operation, and none ends in not found |
| Submission.OperationsAreTimely | internal/repository/business/store.go:53-94 | an operation takes effect at one step inside its own call |
| Submission.CreatedOnceFirst | internal/repository/business/store.go:67-93 | in a serial history a key is created once, before every other answer about it |
| Submission.OneTaskPerKey | internal/repository/business/store.go:78-93 | of all calls with one key at most one sees created; every other success returns that row with the same hash; a conflict has another hash; the table holds one row for the key |
| Submission.SameTaskSameRequest | internal/application/service.go:62-68 | without a hash collision, calls answered with one row asked for the same delivery |
| Submission.RepeatReturnsTheSame | internal/application/service.go:62-68 | a first call creates the row, and a repetition in any spelling gets that row back |
| Submission.RepeatHappens | internal/application/service.go:129-159 | it happens: a body as text, and then the same byte in non-canonical base64 with a line break, share one row |
| Submission.EveryTaskHasItsCall | internal/repository/business/store.go:53-94 | every row comes from a call that asked for it and saw created unless its reply was lost |
| Identifiers.NewID | internal/domain/model.go:21-34 | the byte loop puts the millisecond clock into the first six bytes and sets version and variant only |
| Identifiers.OrderFollowsTime | internal/domain/model.go:26-30 | an identifier of an earlier millisecond comes first in byte order, whatever the random bytes are |
| Identifiers.LessIsLess | internal/repository/business/store.go:131-135 | byte order is the order of the big-endian values |
| Identifiers.ParseIff | internal/domain/model.go:35-46 | a text parses to an identifier iff it is that identifier's text up to the case of digits |
| Identifiers.ParseOfText | internal/domain/model.go:35-50 | ParseID(id.String()) == id |
| Cursor.RawRoundTrip | internal/api/server.go:263-285 | unpadded URL-safe base64 reads back what it wrote |
| Cursor.CursorRoundTrip | internal/api/server.go:262-285 | a next cursor reads back as the identifier it was made from |
| Cursor.CursorOfBytes | internal/domain/model.go:47-50 | a cursor carries the text of the sixteen bytes themselves; naming an identifier by its value loses nothing |
| Pagination.List | internal/repository/business/store.go:116-151 | the k greatest matching identifiers below the cursor, in descending order |
| Pagination.Handle | internal/api/server.go:235-288 | rejects exactly the unreadable queries; a page holds the greatest rows below the cursor, and a next cursor exactly when more follow |
| Pagination.LookaheadIsPage | internal/api/server.go:275-286 | one row of lookahead decides exactly whether there is a next page |
| Pagination.NextContinues | internal/api/server.go:262-287 | sending the cursor back continues below the last row with the same filter |
| Pagination.FollowedInOrder | internal/api/server.go:262-287 | whatever happens between pages, rows come in strictly descending order and were there when read |
| Pagination.FollowedCompletely | internal/api/server.go:262-287 | a row that is there at every page is returned |
| Pagination.PagesAreTheList | internal/api/server.go:262-287 | following the cursors yields exactly the sorted list of the first snapshot, even when larger identifiers are inserted meanwhile |
| Pagination.CursorsRunOut | internal/api/server.go:283-286 | no client follows cursors for ever |
| Pagination.FetchAll | internal/api/server.go:235-288 | the client's loop over the handler, sending the cursor text back until it is empty, ends; it collects strictly descending rows, and exactly the matching rows of the first request when only larger identifiers are inserted |
| LivePagination.OldRowsAreReturnedOnce | internal/repository/business/store.go:116-151 | paging by client, target and batch returns every row that was there at the start exactly once while the protocol runs |

## Left out

- The text of a Retry-After header: `Schedule` takes it already classified as seconds, a date or unreadable.
- The route of a refused retry: the code returns an empty string that nothing reads; the model has `Dispatch`.
- Overflow of the 64-bit generation and of the attempt counters; both are unbounded here.
- Clock skew between Go and MariaDB and the rounding of DATETIME(6); one clock in nanoseconds is used for timing.
- Programs.Worker.Process: the sequential methods prove one undisturbed call; all interleavings are in `Protocol`.
- RecoveryLoop.Loop.Step: one reading serves each transaction, also the one that reconciles up to a hundred rows.
- Database, broker and Redis errors other than a crash of the caller between two steps.
- SKIP LOCKED appears as a set of rows that another transaction has locked, chosen arbitrarily.
- Pagination.List: with a status filter a row may enter or leave the result between pages, so completeness there is for rows that match at every page.
- Letters outside ASCII: `ToUpper` on methods, `ToLower` on query names and `TrimSpace` on keys are modelled for ASCII.
- Normalize.Draft.Normalize: which of several errors is reported is not modelled, only that the request is refused.
- JSON encoding and SHA-256 of a submission appear as one function from its normal form to a hash.
- The stored delivery mode, batches as a table, response previews, hashes of responses and last error columns.
- The HTTP adapter, redaction, the hook language, authentication, allowlists and secrets.
- AMQP channels and connections, the Redis lock script and client, and fail-open degradation counters.
- Configuration loading and its history cache, health endpoints, logging, statistics, startup and shutdown.

# Maki: a verified model

Maki is a personal-finance backend. This project models its asynchronous job system and the pure
algorithms and small state machines around it, and proves what they promise.

**The job system.** A request stores a job, an outbox row and an idempotency key in one transaction. A
dispatcher copies outbox rows to one Redis stream for each job kind and then marks them published. Workers
read or reclaim deliveries, claim the job under a lease token, run a handler, finish the job and settle the
delivery. `jobs_models`, `job_repository` and `redis_queue` hold the records and the atomic effects;
`job_protocol` is the step relation over the tables, the streams and any number of processes, in which every
transaction and every queue call is one step, a process may crash before any of them, and each step brings
its own clock reading. `job_invariant`, `job_steps`, `job_history`, `job_letters`, `job_replies` and
`job_origins` are the inductive proof, `job_safety` and `job_progress` the results. `job_runtime` and
`job_dispatcher` are the worker and the dispatcher as classes with their own control flow, proved to perform
exactly the steps of the protocol, and `job_endings` says what such a run leaves behind.

**Calibration and metrics.** `isotonic*` is pooling of adjacent violators against least squares, `roc_auc`
the averaged-rank ROC-AUC against counting pairs, `conformal` the conformal quantile, `temporal_split` the
time-ordered training groups.

**State machines that forget.** `rate_limiter` against its log of admissions, `entitlements` against the
set of recorded store events, `conversation` against the full history of turns, `retention` against the set
of expired rows.

**Receipts.** `money` reads amounts, `receipts` reconciles them.

`basics`, `sorting`, `totals` and `wrappers` are shared. Scores, means, residuals and times are exact reals
or integers. Identifiers that the code draws at random are fresh values, and digests are compared only by
equality.

## What the code does not do

The properties below fail for the code as it is; each has a lemma with an input or with the exact condition.

- Isotonic fitting can fail to be least squares when a score carries both labels, because a zero is pooled to
  the left before the ones of the same score arrive (`IsotonicTheorem.MixedTiesCanLose`). It is least squares
  exactly for the inputs that `IsotonicTies.FitIsOptimalIff` describes.
- A fit with more than 5000 blocks is refused by the validation of its own model, whose parameter list is
  limited to 10000 values (`IsotonicStructure.LongFitIsRefused`). A fit is accepted exactly for the inputs
  that `IsotonicLength.FitIsValidIff` describes.
- "1.234.560" is read as 1234.56 and "1.234.567" is rejected: without a decimal part the last of two or more
  thousands groups is taken for decimals (`Money.GroupedWholeAmounts`). Amounts beyond 28 significant digits
  are rounded (`Money.RoundTrip`).
- A repeated request id replaces its own entry, so it can be admitted without end unless the limit is one
  (`RateLimiter.RepeatedIdsEscape`).
- When two store events share the highest order, the first to arrive stays, so the row depends on the order
  of arrival (`Entitlements.WholeRowConverges`, `Entitlements.TiesDependOnArrival`).
- A report of fraud in a remembered session that sounds like a follow-up is answered on the remembered topic
  instead (`Conversation.FraudAnswered`, `Conversation.FraudIsMasked`).
- After a subject is erased, replaying an event that was recorded before ends in an error
  (`Entitlements.ReplayAfterErasure`).
- A claim can raise, but only for a lease duration that is not positive, which the repository accepts
  (`JobSafety.TransactionsNeverRaise`, `JobProgress.ClaimCanRaise`).
- A retention worker without classes of its own over the SQL store fails after two of its four classes
  (`Retention.DefaultRunStopsEarly`).

## Model

| member | source | states |
|---|---|---|
| `JobModels.ClaimMeaning` | backend/src/maki/jobs/models.py:131-162 | a claim on a well-formed record succeeds exactly for a positive lease on a queued, retry-waiting or lapsed running job; it counts one attempt, installs the new token, raises the version and keeps the payload; the error names what was wrong |
| `JobModels.FinishMeaning` | backend/src/maki/jobs/models.py:164-175 | a finish succeeds exactly for the holder of the current lease and a target the running state allows, gives the lease up, keeps the attempt count and drops the payload only at the end; otherwise the lease is lost |
| `JobModels.TransitionsAllowed` | backend/src/maki/jobs/models.py:35-42 | an unfinished record can always fail, otherwise the status moves along the listed path, and a finished one never moves |
| `JobModels.NewJobIsOk` | backend/src/maki/jobs/models.py:77-96 | a new record satisfies the record invariants |
| `JobRepository.SqlJobRepository.CreateWithOutbox` | backend/src/maki/infrastructure/job_repository.py:34-48 | an existing key decides the answer; otherwise job, outbox row and key appear together or not at all, refused exactly when a key or reference of the tables is violated |
| `JobRepository.SqlJobRepository.ClaimJob` | backend/src/maki/infrastructure/job_repository.py:63-86 | the claim transaction changes the tables as its specification function says, with all five outcomes |
| `JobRepository.SqlJobRepository.FinishJob` | backend/src/maki/infrastructure/job_repository.py:88-108 | the finish transaction, with a missing job and a lost lease as errors that change nothing |
| `JobRepository.SqlJobRepository.ListUnpublished` | backend/src/maki/infrastructure/job_repository.py:110-119 | the oldest unpublished rows by creation time and identifier, fewer than the limit only when there are no more |
| `JobRepository.SqlJobRepository.Mark` | backend/src/maki/infrastructure/job_repository.py:121-142 | marking stamps the row with its time and queues an accepted job, payload and all, in one transaction; a repeated mark changes nothing, an orphan is an error |
| `RedisQueue.RedisJobQueue.Consume` | backend/src/maki/infrastructure/redis_queue.py:75-88 | an idle pending entry first, else the next unread one moves to the pending list |
| `RedisQueue.RedisJobQueue.Retry` | backend/src/maki/infrastructure/redis_queue.py:93-100 | append with one more attempt and acknowledge, atomically |
| `RedisQueue.RedisJobQueue.DeadLetter` | backend/src/maki/infrastructure/redis_queue.py:105-112 | append to the failed stream and acknowledge, atomically |
| `JobRuntime.WorkerRuntime.RunOnce` | backend/src/maki/workers/runtime.py:77-98 | one run of the imperative worker performs, effect by effect, the steps of its program counter in the protocol |
| `JobRuntime.WorkerRuntime.Execute` | backend/src/maki/workers/runtime.py:100-149 | the handler and its five endings, each followed by its finish and queue effect in the right order; it raises exactly when the lease or the job is gone |
| `JobRuntime.WorkerRuntime.RetryOrFailJob` | backend/src/maki/workers/runtime.py:151-168 | retry below the attempt limit, permanent failure at it |
| `JobRuntime.WorkerRuntime.FailPermanently` | backend/src/maki/workers/runtime.py:170-184 | finish as failed, then write the dead letter |
| `JobRuntime.WorkerRuntime.Create` | backend/src/maki/workers/runtime.py:57-75 | a worker is built exactly for at least one attempt |
| `JobRuntime.DriveIsARun` | backend/src/maki/workers/runtime.py:77-184 | such an undisturbed run is a crash-free schedule of the protocol that brings the worker to rest |
| `JobEndings.HandlerEndsTheJob` | backend/src/maki/workers/runtime.py:100-184 | a worker that holds the lease ends its job as the handler ended, field by field: success, failure at once for a permanent error or a missing handler, a retry below the attempt limit and failure at it, with the matching entry in the stream |
| `JobEndings.StaleHandlerEndsNothing` | backend/src/maki/workers/runtime.py:151-184 | a worker whose lease was taken over changes neither tables nor streams |
| `JobEndings.DeliveryEnds` | backend/src/maki/workers/runtime.py:77-98 | one delivery from claim to end: buried for a missing job, closed for a finished one, left alone while the job is accepted or leased, else claimed and ended as above |
| `JobDispatcher.OutboxDispatcher.RunOnce` | backend/src/maki/workers/dispatcher.py:49-73 | one run of the dispatcher publishes and marks the oldest unpublished rows, one after the other, as the protocol steps do, and counts them all |
| `JobDispatcher.OutboxDispatcher.Create` | backend/src/maki/workers/dispatcher.py:31-47 | a dispatcher is built exactly for batch sizes 1 to 1000 |
| `JobDispatcher.DriveDispatchIsARun` | backend/src/maki/workers/dispatcher.py:49-73 | such a run is a crash-free schedule of the protocol |
| `JobDispatcher.DispatchEnds` | backend/src/maki/workers/dispatcher.py:49-73 | after a run every row is stamped with its own clock reading, every accepted job of a row is queued with its payload, and every row is one entry of its stream, in order |
| `JobSteps.StepKeepsCore` | backend/src/maki/workers/runtime.py:77-184 | every step of every process, crashes and deletions included, keeps the core invariant and what other processes rely on |
| `JobHistory.StepKeepsHistory` | backend/src/maki/infrastructure/job_repository.py:63-108 | every step keeps the agreement of leases, attempts and terminal records with the log of claims and finishes |
| `JobLetters.StepKeepsLetters` | backend/src/maki/workers/runtime.py:170-184 | every step keeps each dead letter, written or about to be, explained by a failed finish or a missing job, and each job within one letter that is not for a missing job |
| `JobReplies.StepKeepsReplies` | backend/src/maki/infrastructure/job_repository.py:144-187 | every step keeps the answers to creators in agreement with the stored keys |
| `JobReplies.OnlyTheKeyCollides` | backend/src/maki/infrastructure/job_repository.py:144-159 | with fresh identifiers the insert of a creator fails exactly when its key is already taken |
| `JobReplies.ReadersAreAnswered` | backend/src/maki/infrastructure/job_repository.py:161-187 | a creator that reads the key is told the stored job, or a conflict for another payload; after a refused insert without a key the error stands |
| `JobReplies.InsertersAreAnswered` | backend/src/maki/infrastructure/job_repository.py:144-159 | a creator whose key is free stores its job, row and key together and is told its own job |
| `JobOrigins.StepKeepsOrigins` | backend/src/maki/infrastructure/job_repository.py:34-48 | every step keeps all records, rows, keys and workers' copies in agreement with the accepted requests |
| `JobSafety.ReachableInv` | backend/src/maki/workers/runtime.py:77-184 | the whole invariant holds in every reachable state |
| `JobSafety.NoJobIsLost` | backend/src/maki/workers/runtime.py:77-184 | in every reachable state an unfinished stored job has its outbox row unpublished or an unacknowledged entry in the stream of its kind |
| `JobSafety.AcksOnlyFinishedJobs` | backend/src/maki/workers/runtime.py:83-98 | an acknowledgement or dead letter is only ever about to be sent for a job that is finished or gone |
| `JobSafety.StoredRecords` | backend/src/maki/jobs/models.py:98-162 | every stored job has exactly one outbox row, unpublished iff the job is accepted; lease fields are set iff it runs, completed_at iff it is terminal, and a terminal record has an empty payload |
| `JobSafety.StoredAsRequested` | backend/src/maki/jobs/models.py:77-129 | in every reachable state a stored job, its outbox row and its key are those of one accepted request, and an unfinished job carries the payload that was asked for |
| `JobSafety.WorkersHoldThePayload` | backend/src/maki/workers/runtime.py:100-118 | the copy a worker holds carries that payload too, even after its lease was taken over |
| `JobSafety.ErasureIsExact` | backend/src/maki/infrastructure/privacy_repository.py:68-100 | an erasure removes exactly the jobs of the subject, with their outbox rows and keys |
| `JobSafety.TransactionsNeverRaise` | backend/src/maki/infrastructure/job_repository.py:80-86 | in reachable states claim_for_work reaches a ValueError of claim exactly when the configured lease is not positive and the job is up for work; mark_published never finds an orphan |
| `JobSafety.TerminalRecordsAreFinal` | backend/src/maki/jobs/models.py:35-42 | along every run a terminal record never changes again and a deleted job never comes back |
| `JobSafety.FinishNeedsLatestClaim` | backend/src/maki/jobs/models.py:164-175 | a finish changes the database only with the token of the latest claim of the job, and no finish used that token before |
| `JobSafety.StaleFinishIsRefused` | backend/src/maki/infrastructure/job_repository.py:88-108 | a worker whose lease was taken over changes nothing and leaves its delivery open |
| `JobSafety.FinishesAreFenced` | backend/src/maki/infrastructure/job_repository.py:88-108 | over a run each claim has at most one effective finish, each job at most one terminal finish, and the record shows that finish |
| `JobSafety.DeadLettersMatchRecords` | backend/src/maki/workers/runtime.py:170-184 | a stored job has at most one entry in the failed streams, in that of its kind, with the failure code of the record |
| `JobSafety.LettersAreExplained` | backend/src/maki/workers/runtime.py:92-98 | every dead letter, erased and purged jobs included, carries the code of a finish that failed its job, or says that a job was missing which had been stored and is gone |
| `JobSafety.OneLetterPerJob` | backend/src/maki/workers/runtime.py:170-184 | over a whole run, erasures and purges included, a job has at most one dead letter that does not say it was missing |
| `JobSafety.RetryBudget` | backend/src/maki/workers/runtime.py:151-168 | attempt equals the number of claims, a job waits for a retry only below the limit, and attempt exceeds it at most by the number of lease takeovers |
| `JobSafety.CreationIsIdempotent` | backend/src/maki/infrastructure/job_repository.py:34-48 | however creators interleave, answers under one unpurged key agree: same payload same job, different payload a conflict |
| `JobSafety.AnswersAreJobsOrConflicts` | backend/src/maki/infrastructure/job_repository.py:161-187 | every answer to a creator is a job or a conflict, except an integrity error when the key was purged meanwhile; a key without a job is never met |
| `JobSafety.KeysNameJobs` | backend/src/maki/infrastructure/job_repository.py:175-187 | every key names one stored job with the payload of the key, and no job has two keys |
| `JobSafety.VersionsIdentifyRecords` | backend/src/maki/jobs/models.py:109-129 | between two points of any run versions and attempts of a job never fall, the start time is kept, and the same version means the same record |
| `JobProgress.UnfinishedJobsCanComplete` | backend/src/maki/workers/runtime.py:77-184 | no reachable state is a trap: from each one some schedule completes any given unfinished job |
| `JobProgress.ClaimCanRaise` | backend/src/maki/jobs/models.py:131-134 | with a lease duration that is not positive a short run from the empty system reaches a job whose claim raises |
| `Isotonic.FitIsotonic` | backend/src/maki/modeling/calibration.py:141-169 | the loop over the ordered samples builds the block stack of the specification, flattens it and validates it |
| `Isotonic.AddSample` | backend/src/maki/modeling/calibration.py:147-164 | one sample extends or opens a block, then blocks merge while the last two means decrease |
| `Isotonic.IsotonicProbability` | backend/src/maki/modeling/calibration.py:176-183 | the value of the first boundary that is not below the score, else the last value |
| `IsotonicStructure.FitIsWellFormed` | backend/src/maki/modeling/calibration.py:141-169 | for all inputs, ties included, boundaries strictly increase, means are nondecreasing and within [0,1], and weights and label sums are conserved |
| `IsotonicStructure.AcceptedParameters` | backend/src/maki/modeling/calibration.py:208-219 | a parameter list is accepted exactly for one to 5000 pairs with strictly rising boundaries and probabilities |
| `IsotonicStructure.FitIsValidUnlessTooLong` | backend/src/maki/modeling/calibration.py:208-219 | model validation accepts a fit exactly when it has at most 5000 blocks, the length limit of the parameter field |
| `IsotonicStructure.FitIsNoLongerThanScores` | backend/src/maki/modeling/calibration.py:141-169 | a fit has at most as many blocks as there are different scores |
| `IsotonicStructure.FewScoresAreValid` | backend/src/maki/modeling/calibration.py:208-219 | so a fit on up to 5000 different scores is always accepted |
| `IsotonicSurvivors.BoundariesAreKept` | backend/src/maki/modeling/calibration.py:147-164 | two blocks of a fit meet exactly at the rises of the ordered samples that nothing outweighs, a condition on the samples alone |
| `IsotonicLength.FitLength` | backend/src/maki/modeling/calibration.py:147-164 | a fit has one block more than there are rises that nothing outweighs, for every nonempty input |
| `IsotonicLength.FitIsValidIff` | backend/src/maki/modeling/calibration.py:208-219 | model validation accepts a fit exactly when fewer than 5000 rises of the ordered samples are not outweighed |
| `IsotonicLength.EmptyFitIsRefused` | backend/src/maki/modeling/calibration.py:208-211 | a fit without samples is refused as well |
| `IsotonicLength.HarmlessFitIsValidIff` | backend/src/maki/modeling/calibration.py:208-219 | with harmless ties the same holds of the rises that no samples pull over, whatever the blocks |
| `IsotonicLength.OneLabelIsHarmless` | backend/src/maki/modeling/calibration.py:141-164 | ties are harmless whenever no score carries both labels |
| `IsotonicLength.ManyRisesAreRefused` | backend/src/maki/modeling/calibration.py:208-219 | whatever the ties, 5000 rises that are not pulled over make validation refuse the fit |
| `IsotonicLength.PulledRisesCanStay` | backend/src/maki/modeling/calibration.py:147-164 | with harmful ties a rise that is pulled over can still separate two blocks: eight samples |
| `IsotonicStructure.LongFitIsRefused` | backend/src/maki/modeling/calibration.py:33-53 | the limit bites: 5001 different scores without a positive label give a fit that validation refuses |
| `IsotonicStructure.ApplyIsValue` | backend/src/maki/modeling/calibration.py:79-95 | applying the stored parameters gives the mean of the block the score falls into |
| `IsotonicTies.FitIsOptimalIff` | backend/src/maki/modeling/calibration.py:141-183 | the fit has the least squared error of all monotone functions of the score exactly when the ties of the input are harmless: every rise that some samples after it pull over is also bridged by whole groups of equal scores around it |
| `IsotonicTies.OneScoreIsOptimal` | backend/src/maki/modeling/calibration.py:141-183 | both labels at the only score do no harm |
| `IsotonicTies.MixedTiesAreHarmful` | backend/src/maki/modeling/calibration.py:147-164 | the five samples below violate the condition |
| `IsotonicTheorem.SafePoolsAreOptimalIff` | backend/src/maki/modeling/calibration.py:141-183 | the same in terms of the fitted blocks: least squares exactly when no block hides a rise before which the labels stay below its mean |
| `IsotonicSurvivors.FitHidesOnlyPulled` | backend/src/maki/modeling/calibration.py:147-164 | whatever rise a fit hides in a block was pulled over when the blocks were merged |
| `IsotonicBoundaries.FitRightIsHigh` | backend/src/maki/modeling/calibration.py:147-164 | every stretch that starts where a block starts has at least the mean of the block before it |
| `IsotonicTheorem.FitIsOptimal` | backend/src/maki/modeling/calibration.py:141-183 | and so for every input in which no score carries both labels, distinct scores included |
| `IsotonicTheorem.MixedTiesCanLose` | backend/src/maki/modeling/calibration.py:147-164 | with both labels at one score the fit can be beaten: five samples that show it |
| `IsotonicUnsafe.UnsafeIsBeaten` | backend/src/maki/modeling/calibration.py:147-164 | a monotone function with a smaller squared error, for every hidden boundary |
| `IsotonicOptimality.SafePoolsAreOptimal` | backend/src/maki/modeling/calibration.py:141-183 | on safely pooled blocks no monotone function does better, block by block |
| `IsotonicTheorem.AppliedFit` | backend/src/maki/modeling/calibration.py:79-95 | applying a fit keeps the order of any scores, and over the fit scores its values sum to the number of positive labels |
| `RocAuc.RocAuc` | backend/src/maki/modeling/model_card.py:182-203 | the one-pass computation returns the share of positive-negative pairs in the right order, ties counting half, and fails exactly when a class is missing |
| `RocAuc.AveragedRanks` | backend/src/maki/modeling/model_card.py:192-200 | the nested loops sum the averaged ranks of the positives: the pair score plus the triangle number of the positives |
| `RocAuc.AreaIsAProbability` | backend/src/maki/modeling/model_card.py:201-203 | the result lies in [0,1] |
| `RocAuc.AreaIgnoresOrder` | backend/src/maki/modeling/model_card.py:192-203 | any reordering of the input gives the same result |
| `RocAuc.MirroredArea` | backend/src/maki/modeling/model_card.py:182-203 | negating every score turns the area into its complement |
| `RocAuc.PerfectArea` | backend/src/maki/modeling/model_card.py:182-203 | scores that put every positive above every negative have area one |
| `RocAuc.MissingClass` | backend/src/maki/modeling/model_card.py:182-191 | the failing inputs are exactly those in which one label does not occur |
| `RateLimiter.RedisRateLimiter.Check` | backend/src/maki/infrastructure/redis_rate_limit.py:51-94 | one call runs the script on its own key, leaves the other keys alone, and answers as configured when the store is unavailable |
| `RateLimiter.BucketIsRecentLog` | backend/src/maki/infrastructure/redis_rate_limit.py:22-35 | with a clock that does not go back the sorted set is exactly the ids admitted within the window, each with its latest admission; key expiry never drops one |
| `RateLimiter.WindowBound` | backend/src/maki/infrastructure/redis_rate_limit.py:16-36 | in every interval of the length of the window at most limit request ids are admitted, whatever clients send |
| `RateLimiter.AdmissionsAreBounded` | backend/src/maki/infrastructure/redis_rate_limit.py:16-36 | with distinct request ids at most limit admissions |
| `RateLimiter.AnswerFollowsLog` | backend/src/maki/infrastructure/redis_rate_limit.py:23-35 | a new request is refused exactly when limit admissions lie in the window, and an admitted one is told how many are left |
| `RateLimiter.AnswerIsSound` | backend/src/maki/infrastructure/redis_rate_limit.py:23-35 | whatever the ids, an admitted call waits for nothing, a refused one has nothing left, and no answer of the store is degraded |
| `RateLimiter.RetryAfterIsExact` | backend/src/maki/infrastructure/redis_rate_limit.py:24-30 | with nothing else admitted, every call before now + retry_after is refused and every call from then on is admitted |
| `RateLimiter.RepeatedIdsEscape` | backend/src/maki/infrastructure/redis_rate_limit.py:32-34 | if request ids may repeat, admissions are bounded by the limit exactly for a limit of one |
| `Entitlements.SqlEntitlementRepository.Apply` | backend/src/maki/infrastructure/entitlement_repository.py:28-62 | for any transaction and proposal: an existing event changes nothing, a new one is recorded and overwrites the row exactly when the proposal is above it, and a violated key or constraint rolls everything back |
| `Entitlements.ProposalFits` | backend/src/maki/infrastructure/entitlement_repository.py:53-62 | with the entitlement made from a verified transaction no constraint is ever violated |
| `Entitlements.RunKeepsLedger` | backend/src/maki/infrastructure/entitlement_repository.py:28-62 | after any run of the service the tables satisfy their keys and constraints |
| `Entitlements.BillingService.Apply` | backend/src/maki/billing/service.py:13-18 | unverified transactions are refused, others are applied with the entitlement made from them |
| `Entitlements.RowsAreBest` | backend/src/maki/infrastructure/entitlement_repository.py:28-62 | after any run each row is the entitlement of the first recorded transaction with the highest order for its subject and product |
| `Entitlements.Convergence` | backend/src/maki/billing/models.py:34-53 | any order and repetition of the same transactions leaves the same rows with the same event order, event and status |
| `Entitlements.WholeRowConverges` | backend/src/maki/infrastructure/entitlement_repository.py:55-62 | the whole row is the same for every order of arrival exactly when the highest order belongs to one of the transactions only |
| `Entitlements.TiesDependOnArrival` | backend/src/maki/infrastructure/entitlement_repository.py:59-62 | two purchases of the same time and version: whichever arrives first stays |
| `Entitlements.RowSaysTheLatest` | backend/src/maki/billing/models.py:27-49 | there is a row exactly for what was bought, made from a latest transaction by time, version and rank of the event; it grants access after a purchase, renewal, cancellation, restoration or in a grace period, and each other status belongs to its own event |
| `Entitlements.EndingsNeedNoExpiry` | backend/src/maki/billing/models.py:102-107 | a record without an expiry time is valid exactly for an expiry, a revocation or a refund |
| `Entitlements.OrderNeverFalls` | backend/src/maki/billing/models.py:105-132 | the order of a row never falls and rows do not disappear |
| `Entitlements.AccessIsJustified` | backend/src/maki/billing/models.py:54-63 | after any run of valid transactions a row that grants access has an expiry time, and every verified expiry, revocation or refund for it is strictly older by time and version |
| `Entitlements.WhenApplyRaises` | backend/src/maki/infrastructure/entitlement_repository.py:46-50 | the unlinked-event error needs an event id recorded for another subject or product and none for this one |
| `Entitlements.ApplyAnswersWithTheRow` | backend/src/maki/infrastructure/entitlement_repository.py:28-62 | while event ids determine their transactions every verified one is answered with the row as it then is, and a repeated one changes nothing |
| `Entitlements.ErasureForgetsTheSubject` | backend/src/maki/infrastructure/privacy_repository.py:68-100 | erasure removes the name of the subject from rows and events and touches nobody else, and keeps the constraints of the tables |
| `Entitlements.ReplayAfterErasure` | backend/src/maki/infrastructure/privacy_repository.py:199-207 | after an erasure an already recorded event is answered with an error and restores nothing; a new one is granted |
| `Conversation.LocalConversationEngine.Respond` | backend/src/maki/coach/local_conversation.py:168-188 | one turn evicts, looks up, chooses the intent, stores and shrinks, in that order |
| `Conversation.LocalConversationEngine.EvictExpired` | backend/src/maki/coach/local_conversation.py:190-197 | exactly the sessions past their time to live go, the rest keep their order |
| `Conversation.LocalConversationEngine.Shrink` | backend/src/maki/coach/local_conversation.py:183-184 | the oldest sessions go until the size limit holds |
| `Conversation.LocalConversationEngine.Create` | backend/src/maki/coach/local_conversation.py:153-166 | an engine is built exactly for a positive time to live and size |
| `Conversation.EngineRefinesHistory` | backend/src/maki/coach/local_conversation.py:168-197 | with a clock that does not go back each answer is the one the full history gives, and the stored sessions are exactly those whose last financial turn is within the time to live and has fewer than max_sessions other sessions after it, each with the topic of that turn, in recency order |
| `Conversation.FollowUpKeepsTopic` | backend/src/maki/coach/local_conversation.py:178-184 | a follow-up in a remembered session is answered on the remembered topic, with the disclaimer, and makes that session the most recent |
| `Conversation.WordsDecide` | backend/src/maki/coach/local_conversation.py:171-186 | for every turn of every run: the recalled topic, the intent by the user's own words or else the whole text, the disclaimer for exactly nine intents, the last stored entry, and nothing but evictions without advice |
| `Conversation.FraudAnswered` | backend/src/maki/coach/local_conversation.py:175-179 | a report of fraud is answered as one exactly when it does not sound like a follow-up or the session is not remembered |
| `Conversation.FraudIsMasked` | backend/src/maki/coach/local_conversation.py:178-179 | a question about the budget and then a report of fraud that sounds like a follow-up: the answer is about the budget |
| `Conversation.RememberedHolds` | backend/src/maki/coach/local_conversation.py:180-197 | the last max_sessions fresh entries of the recency order, characterised by the history alone |
| `Receipts.ParseState.ConsumeLine` | backend/src/maki/ocr/receipt_parser.py:78-103 | one line updates the state as its specification says |
| `Receipts.ParseState.Reconcile` | backend/src/maki/ocr/receipt_parser.py:128-142 | the flag is raised exactly on the listed inconsistencies |
| `Receipts.ParseReceipt` | backend/src/maki/ocr/receipt_parser.py:69-75 | the parser over all lines, with the limits of the result fields |
| `Receipts.ReceiptSays` | backend/src/maki/ocr/receipt_parser.py:78-152 | the items in order, the last value of each summary field, the first plain text before any item as merchant, and one confidence for every used line |
| `Receipts.AcceptedIff` | backend/src/maki/ocr/models.py:66-85 | a result is refused exactly when it breaks a limit: 500 items, 600 confidences, a merchant of 1 to 200 characters, no negative amount |
| `Receipts.ReviewIff` | backend/src/maki/ocr/receipt_parser.py:78-142 | a receipt is not flagged exactly when its lines reconcile, a condition on the lines alone |
| `Receipts.UnflaggedReconciles` | backend/src/maki/ocr/receipt_parser.py:88-142 | an unflagged receipt has items, line totals within one unit, and a total within the number of items plus two, or plus one without a subtotal |
| `Receipts.BoundIsReached` | backend/src/maki/ocr/receipt_parser.py:128-142 | the bound is reached for every number of items |
| `Money.RoundTrip` | backend/src/maki/ocr/receipt_parser.py:230-253 | minor units written with two decimals in any of four styles parse without an error, to the same number exactly when the digits beyond the 28th are zeros |
| `Money.DecimalAmount` | backend/src/maki/ocr/receipt_parser.py:240-253 | amounts with one or two decimals, grouped or not, parse to their minor units rounded to 28 significant digits |
| `Money.GroupedWholeAmounts` | backend/src/maki/ocr/receipt_parser.py:246-252 | grouped amounts without decimals are read correctly exactly below one million; above, they are rejected or silently read as a thousandth |
| `Money.SmallGroups` | backend/src/maki/ocr/receipt_parser.py:246-252 | one thousands group, leading zeros included, is read as the whole number |
| `Money.LargeGroups` | backend/src/maki/ocr/receipt_parser.py:246-252 | with two or more groups, leading zeros included, the last group is taken for decimals |
| `Money.PlainDigits` | backend/src/maki/ocr/receipt_parser.py:230-253 | digits alone, leading zeros included, parse to one hundred times their number rounded to 28 significant digits |
| `Money.SeparatorsAreNoAmount` | backend/src/maki/ocr/receipt_parser.py:230-253 | a text of separators without a digit is no decimal |
| `Money.RoundedIsNearest` | backend/src/maki/ocr/receipt_parser.py:230-237 | rounding gives the nearest number of 28 significant digits, an even last digit halfway |
| `Money.PlainWholeAmounts` | backend/src/maki/ocr/receipt_parser.py:230-253 | amounts of digits alone parse to one hundred times their value rounded to 28 significant digits |
| `TemporalSplit.SplitHasNoLeak` | backend/src/maki/modeling/training.py:73-107 | the three groups are nonempty, partition the observations as a multiset, and follow one another strictly in time |
| `TemporalSplit.CalibrationHasNoLeak` | backend/src/maki/modeling/training.py:181-194 | the calibration groups likewise, and the split succeeds exactly for two or more periods |
| `TemporalSplit.DefaultSplitSucceeds` | backend/src/maki/modeling/training.py:73-95 | with the default fractions the split succeeds exactly for three or more different times |
| `TemporalSplit.PeriodsOfGroups` | backend/src/maki/modeling/training.py:91-106 | training covers the first periods, validation the next ones and holdout the rest |
| `TemporalSplit.CalibrationHalves` | backend/src/maki/modeling/training.py:191-193 | calibration fit covers the earlier half of the periods, rounded down, and evaluation the later one |
| `TemporalSplit.DefaultShares` | backend/src/maki/modeling/training.py:91-93 | with the default fractions validation and holdout each take a fifth of the periods to the nearest whole number |
| `TemporalSplit.SharesAreNearest` | backend/src/maki/modeling/training.py:91-93 | for any fractions validation and holdout take their share of the periods, rounded to the nearest and at least one, training the rest |
| `TemporalSplit.SplitFailsIff` | backend/src/maki/modeling/training.py:80-98 | the exact condition of each of the three errors |
| `TemporalSplit.FourShares` | backend/src/maki/modeling/training.py:119-120 | the sizes of the four groups of a training run, and its errors below eight different times |
| `TemporalSplit.FourGroupsHaveNoLeak` | backend/src/maki/modeling/training.py:119-120 | training, calibration fit, calibration evaluation and holdout: nonempty, a partition, each strictly before the next |
| `TemporalSplit.TrainingNeedsEightPeriods` | backend/src/maki/modeling/training.py:119-120 | both splits of a training run succeed exactly for eight or more different times |
| `Retention.SqlRetentionBackend.PurgeBefore` | backend/src/maki/infrastructure/privacy_repository.py:110-161 | one call deletes the oldest expired rows up to the batch size, with their cascades, and refuses classes that are not stored there |
| `Retention.RetentionWorker.PurgeClass` | backend/src/maki/workers/retention.py:56-74 | the loop ends after one call for every full batch and a last one, returns the number of expired rows, and exactly those are gone |
| `Retention.RetentionWorker.Run` | backend/src/maki/workers/retention.py:46-54 | one class after the other, with the last count of each; a class the store does not hold ends the run with an error after the classes before it have been purged |
| `Retention.CutoffByClass` | backend/src/maki/privacy/retention.py:40-75 | the cutoff of a class is its own time to live before now |
| `Retention.PurgedOnlyTheOld` | backend/src/maki/privacy/retention.py:40-75 | a run removes exactly the jobs finished for their time to live, with their rows and keys, and the keys that are as old as theirs |
| `Retention.CountsAreOfTheOld` | backend/src/maki/workers/retention.py:46-54 | each count is the number of old rows that no earlier class of the run has taken |
| `Retention.DefaultRunStopsEarly` | backend/src/maki/workers/retention.py:44-54 | without classes of its own the worker purges two classes of the SQL store and then fails on the third |
| `Retention.RetentionWorker.Create` | backend/src/maki/workers/retention.py:26-44 | a worker is built exactly for batch sizes 1 to 10000 |
| `Retention.PurgeIsExact` | backend/src/maki/infrastructure/privacy_repository.py:124-161 | exactly the expired rows go, and of other tables only what belongs to a purged job |
| `Retention.UnfinishedJobsStay` | backend/src/maki/infrastructure/privacy_repository.py:143-161 | no purge touches an unfinished job or its outbox row |
| `RetentionProtocol.PurgeKeepsReachability` | backend/src/maki/infrastructure/privacy_repository.py:143-161 | in every reachable state of the job protocol a purge is a step of it and removes finished jobs only |
| `Conformal.WidthIsLeast` | backend/src/maki/forecast/calibration.py:36-42 | a half-width covers at least min(n, rank) residuals exactly when it is not smaller than the computed one |
| `Conformal.WidthMeetsTheTarget` | backend/src/maki/forecast/calibration.py:36-42 | a half-width is at least the computed one exactly when all residuals lie within it, or as many as the target share of n + 1 |
| `Conformal.CalibrateWidens` | backend/src/maki/forecast/calibration.py:16-34 | only the bounds of the points change, to the width on both sides of the prediction, and the exact errors |
| `Conformal.CoverageReached` | backend/src/maki/forecast/calibration.py:36-42 | sample coverage is at least the target, and rank many are covered exactly when there are that many |
| `Conformal.CalibratedIntervalsCover` | backend/src/maki/forecast/calibration.py:16-34 | calibrated intervals contain their predictions and at least the target share of the values the residuals come from |

## Left out

- JobProtocol: a dispatcher may list any set of unpublished rows the ordering allows at that moment, and an
  entry that is pending may be reclaimed at any time, because the visibility timeout and blocking reads are
  not modelled; both only add behaviours. `ListUnpublished` itself is proved exact.
- JobProgress.UnfinishedJobsCanComplete: says that a completing continuation exists, not that fair scheduling
  finds it; handlers, crashes and clocks stay arbitrary.
- JobSafety.CreationIsIdempotent: holds until the key is purged; after that the same key creates a new job,
  as retention intends.
- Trace parents, telemetry and the wire format of stream fields: they do not influence any branch.
- RateLimiter.AnswerFollowsLog: assumes clock readings that do not go back and a store clock that agrees with
  them for the expiry of a key; the calls let through while the store is unavailable are not in the log.
- Floating-point rounding in calibration, metrics, splits and quantiles: exact reals are used instead.
- Platt scaling, log loss, model selection and promotion: transcendental functions without an exact
  specification.
- Money: amounts are ASCII digits and separators as the amount pattern matches them; other Unicode digits and
  surrounding white space are not modelled.
- Receipts: the patterns that classify a line, the grouping of boxes into lines and label normalisation; a
  line arrives classified. Products of quantity and price are exact, not rounded to 28 digits.
- Conversation: keyword scoring, follow-up detection and response texts; a turn arrives with its intents.
- Retention.RetentionWorker.PurgeClass: the number of calls is stated for a purge without other writers;
  purge callbacks are omitted.
- Entitlements: event digests, listing and the verification of store signatures; two concurrent transactions
  of one event id under different subjects, which the primary key refuses.
- HTTP routes, authentication, provider adapters, forecasting models, the front end and the in-memory local
  runtime: wiring, foreign code, or easy members.

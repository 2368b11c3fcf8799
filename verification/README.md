# askdb-go: verified models of job delivery and of the SQL guard

The project models two parts of askdb-go and proves what they guarantee.

**Job delivery** (`internal/queryjob`). A submitted question becomes a row of `query_jobs` and a row of
`outbox_events` in one transaction. Dispatchers claim outbox rows under a lease, publish them with confirms and mark
them published. Consumers claim a row of `processed_messages` under a fenced lease, move the job through its statuses
by compare-and-set, publish retries or dead letters, and ACK last. The models are transition systems over the
tables, the queues and any number of workers and dispatchers, with crashes, duplicate publishes, publish timeouts
after which a message may still enter, expired leases, stalled workers and cache evictions between any two steps. The
methods of the repositories, of the worker, the consumer, the dispatcher and the publisher are written as classes
whose runs are shown to be runs of these systems.

**The SQL guard** (`internal/sqlguard`). The traversal with copied CTE scopes and an early-stopping visitor is proved
to accept exactly the statements that a traversal-free policy permits. A reference semantics, parametric in what
operators, joins and set operations compute, says what an accepted statement can read and what the LIMIT rewrite
does to its result.

| files | contents |
|---|---|
| `JobStatus`, `Messages`, `QueryJobs`, `Idempotency`, `Outbox`, `Submissions` | tables, messages and repositories |
| `Publisher`, `Backoff` | publisher confirms, exponential backoff |
| `Delivery` | the delivery protocol as a transition system |
| `DeliverySafety`, `DeliveryFrames` | its invariant, step by step, and what each step leaves alone |
| `DeliveryTheorems`, `LostJob`, `LostAfterWrite` | what holds in every run, the one step that loses a job, and two runs that reach it |
| `PoliteRuns`, `CleanRuns`, `Results` | runs without lease loss, runs without faults after a publish, result retrieval |
| `Consumer` | consumer and worker service as code over `Delivery`, given how each call turns out |
| `Progress` | runs that bring a delivered job forward |
| `Dispatch`, `DoublePublish`, `OutboxTiming`, `Dispatcher` | the outbox side, how often an event is published, the times that are waited out, `runOnce` as code over it |
| `WholeSystem`, `CleanSystem` | both halves together, and their runs without faults after a publish |
| `SqlAst`, `SqlPolicy`, `SqlValidator` | syntax tree, policy, checker |
| `SqlContents` | the policy said with a plain containment relation |
| `SqlMeaning`, `SqlReads`, `SqlLimit`, `SqlGuard`, `Executor` | semantics, non-interference, LIMIT, `Validate`, row cap |

## What is false of the code, and when exactly

- **A job can be lost.** A redelivered old attempt that finds its job waiting for a later one returns nil, and the
  consumer then completes the idempotency row, so the waiting retry is dropped as a duplicate.
  `LostJob.LostJobExists` is a run that does it (the worker crashes between `SetRetrying` and `MarkRetryScheduled`).
  `DeliveryTheorems.LostExactlyByStaleMark` says that a step loses a job exactly when it is that `MarkCompleted`, and
  `LostJob.LossPossibleIffRetries` that some run loses a job exactly when `maxRetries > 0`.
- **An accepted statement can read a table outside the allowlist**, in two ways. The scope of a CTE body holds all
  siblings, so a body naming a later one passes, while binding from left to right reads the table of that name
  (`SqlReads.ForwardReadsUnlisted`). And expressions the guard never visits, such as the ORDER BY of a set operation,
  may hold a subquery on any table (`SqlReads.UnvisitedReadsUnlisted`). `SqlReads.ReadsListedIff` says that an accepted
  statement reads only listed tables exactly when its CTEs are named only after their definition and its unvisited
  expressions name only listed tables.
- **Retry headers survive only up to 100 retries.** `Messages.RetryHeadersSurvive` gives the exact bound, under which
  the theorems about all runs are stated; no configuration check enforces it.
- **`backoffFor` rounds its base.** It is the capped doubling exactly when the base survives the conversion to
  float64 or both base and image reach the cap (`Backoff.ExactIffBaseSurvives`).

Three comments in the source are contradicted:

- That `SKIP LOCKED` prevents double publishing (`internal/queryjob/dispatcher.go:39-40`). Under every configuration a
  run publishes one event twice (`DoublePublish.PublishedTwice`); `DoublePublish.EntersAgainIff` says at which steps an
  event enters again, and `DoublePublish.SendsBounded` that each further time is paid for by a release or an expired
  lease.
- That a job is not lost when the database write after a retry publish fails
  (`internal/queryjob/worker_service.go:314-320`): `LostAfterWrite.LostAfterFailedWrite` loses it that way.
- That a stale attempt may be acknowledged because its idempotency row is or will be settled otherwise
  (`internal/queryjob/worker_service.go:130-131`): this acknowledgement is what loses the job in both runs.

## Model

| member | source | states |
|---|---|---|
| JobStatus.CanTransition | internal/queryjob/status.go:45-52 | the lookup answers membership in the transition table, both ways |
| JobStatus.PathExtends | internal/queryjob/status.go:27-36 | a legal transition extends a path of statuses |
| Messages.RetryHeadersSurvive | internal/queryjob/consumer.go:277-299 | every retry attempt survives uint8, int32 and the header check if and only if maxRetries is at most 100 |
| Messages.EnvelopeIff | internal/queryjob/consumer.go:107-130 | a delivery passes the envelope checks if and only if it is an outbox message or a worker message with an attempt of at most 100, for a job other than 0; its attempt is 0 or the header |
| QueryJobs.JobRepository.TransitionStatus | internal/queryjob/repository.go:90-105 | succeeds exactly if the row stands at `from`, and then changes only its status |
| QueryJobs.JobRepository.UpdateRetrying | internal/queryjob/repository.go:110-133 | compare-and-set to retrying, overwriting the attempt count without comparing it |
| QueryJobs.JobRepository.UpdateSucceeded | internal/queryjob/repository.go:138-170 | compare-and-set to succeeded with row count, finish and expiry time |
| QueryJobs.JobRepository.UpdateFailed | internal/queryjob/repository.go:175-200 | compare-and-set to failed with error code and finish time |
| Submissions.JobsAndOutbox.CreateAndEnqueue | internal/queryjob/repository.go:17-48 | a queued job of the given owner, with no attempt and unset terminal columns, and its pending event appear together under fresh ids, or nothing changes; it succeeds exactly if no statement fails and the message id is new |
| Idempotency.ProcessedMessages.Claim | internal/queryjob/idempotency.go:111-177 | verdict, token and new table for every state of the row, at most one row per message type and job |
| Idempotency.ProcessedMessages.HandleExistingRow | internal/queryjob/idempotency.go:180-225 | completed, retry-scheduled, live and expired rows each get their verdict and update |
| Idempotency.ProcessedMessages.HandleConflictingRow | internal/queryjob/idempotency.go:228-248 | for a message whose job another message owns, the answer is the claim's verdict at every time, which depends on the one row of that job |
| Idempotency.ProcessedMessages.Renew | internal/queryjob/idempotency.go:251-264 | extends the lease exactly if token and processing status match |
| Idempotency.ProcessedMessages.MarkRetryScheduled | internal/queryjob/idempotency.go:267-280 | changes the status exactly if token and processing status match |
| Idempotency.ProcessedMessages.MarkCompleted | internal/queryjob/idempotency.go:283-298 | completes the row exactly if the token matches, whatever its status |
| Idempotency.ClaimRespectsLiveLease | internal/queryjob/idempotency.go:111-248 | a claim hands out a lease if and only if every row of the job is this message's own, not completed and not under a live lease |
| Idempotency.VerdictIff | internal/queryjob/idempotency.go:111-248 | each of the six verdicts if and only if the table holds the row that calls for it |
| Idempotency.FreshLeaseProtects | internal/queryjob/idempotency.go:118-119 | after a granted claim any later claim is held off until now + 30 s, and takes over from then on |
| Idempotency.LaterClaimsSee | internal/queryjob/idempotency.go:251-298 | a renewed lease protects for 30 s more, a scheduled retry is resumed, a completed row is already done |
| Publisher.ConfirmPub.Publish | internal/queryjob/publisher.go:78-109 | success means the message entered the queue and a broker NACK that it did not, with returns left over from earlier timed-out publishes on the channel; a timeout or a cancellation only while no confirmation arrived, a return error only if a return was read |
| DeliverySafety.StepKeeps | internal/queryjob/worker_service.go:105-344 | every step of every worker, broker, dispatcher and client keeps the invariant and takes back no monotone fact |
| DeliverySafety.RunKeeps | internal/queryjob/consumer.go:106-247 | so does every run |
| DeliverySafety.AckKeeps | internal/queryjob/consumer.go:69-73 | an ACK removes only a superseded or settled message |
| DeliverySafety.ClaimKeeps | internal/queryjob/consumer.go:132-164 | a claim, with any verdict, keeps the invariant |
| DeliverySafety.SendRetryKeeps | internal/queryjob/worker_service.go:307-313 | a retry publish, confirmed, timed out after entering, or refused, keeps the invariant |
| DeliverySafety.SurfaceKeeps | internal/queryjob/publisher.go:104-107 | a message that enters after its publisher timed out or was cancelled keeps the invariant |
| DeliverySafety.MarkDoneKeeps | internal/queryjob/consumer.go:208-216 | completing the idempotency row keeps the invariant although no status is checked |
| DeliveryTheorems.NewestIsCarried | internal/queryjob/consumer.go:142-272 | in every run the newest message ever published for a job is un-ACKed, or its idempotency row is completed |
| DeliveryTheorems.CompletedMeansTerminal | internal/queryjob/consumer.go:208-246 | a completed idempotency row means a terminal job, unless the stale-attempt branch was taken for it |
| DeliveryTheorems.NoJobLost | internal/queryjob/worker_service.go:105-157 | without the stale-attempt branch a published job is terminal or still carried |
| DeliveryTheorems.LostExactlyByStaleMark | internal/queryjob/worker_service.go:125-133 | a step loses a job if and only if it completes the row on behalf of a stale attempt while the job is not terminal |
| DeliveryTheorems.DoneByMark | internal/queryjob/idempotency.go:283-298 | a row becomes completed at exactly one kind of step, by the current token holder of that job |
| DeliveryTheorems.AbandonedForever | internal/queryjob/idempotency.go:191-194 | once the row is completed and nobody works on the job, the job row never changes again in any continuation |
| DeliveryTheorems.HistoryIsPath | internal/queryjob/status.go:27-36 | in every run the status history of a job is a path of the transition table that starts at pending |
| DeliveryTheorems.SucceededWentThrough | internal/queryjob/status.go:27-36 | a job succeeds only through generating, validating and executing in this order, whoever moved it |
| DeliveryTheorems.TerminalColumnsWrittenOnce | internal/queryjob/repository.go:138-200 | terminal rows never change, terminal columns are unset before and set exactly according to the outcome, the expiry a resultTTL after the finish |
| DeliveryTheorems.OneMessageIdentity | internal/queryjob/publisher.go:302-321 | every queued message carries its outbox row's message id and an attempt within maxRetries that the header check accepts |
| DeliveryTheorems.NoConflict | internal/queryjob/consumer.go:160-163 | no claim of a system message meets a conflict, no delivery goes to the DLQ unclaimed, and the job has one idempotency row |
| DeliveryTheorems.SupersededForever | internal/queryjob/idempotency.go:251-298 | in every continuation a handler whose lease was taken over stays fenced off and its lease operations change nothing |
| DeliveryTheorems.CompletedRowFrozen | internal/queryjob/idempotency.go:283-298 | no step of a reachable state changes a completed row |
| DeliveryTheorems.OneLeaseHolder | internal/queryjob/idempotency.go:180-225 | at most one handler holds an unexpired lease for a job |
| DeliveryTheorems.ClaimWaitsForExpiry | internal/queryjob/idempotency.go:201-222 | a claim while another handler's lease is unexpired changes nothing |
| DeliveryTheorems.CauseBeforeState | internal/queryjob/worker_service.go:296-344 | retrying with count n means attempt n was published, MAX_RETRIES_EXCEEDED means a dead letter exists, succeeded means the result was cached, counts stay within maxRetries |
| LostJob.LostJobExists | internal/queryjob/worker_service.go:125-133 | a concrete run after which a retrying job is lost for good |
| LostJob.NoRetriesNoLoss | internal/queryjob/worker_service.go:296-302 | without retries no run loses a job |
| LostJob.LossPossibleIffRetries | internal/queryjob/worker_service.go:296-302 | some run loses a job if and only if maxRetries is positive |
| LostAfterWrite.LostAfterFailedWrite | internal/queryjob/worker_service.go:314-322 | with at least two retries, a run in which the write after a confirmed retry publish fails and the job is lost for good |
| PoliteRuns.PoliteStep | internal/queryjob/consumer.go:168-190 | where no lease is taken from a working holder, every step keeps every worker's view of its job row exact |
| PoliteRuns.UnexpiredIsPolite | internal/queryjob/consumer.go:173-190 | renewal before expiry is enough for that |
| PoliteRuns.NoSwapConflict | internal/queryjob/repository.go:90-200 | a worker's own compare-and-set finds its row |
| PoliteRuns.OneWorkerPerJob | internal/queryjob/idempotency.go:201-222 | in such runs one worker at a time works on a job and none of its updates is refused |
| PoliteRuns.CacheIsRecorded | internal/queryjob/worker_service.go:265-291 | in such runs the cached row count of a succeeded job is the recorded one, and the entry outlives the recorded expiry |
| CleanRuns.CleanStep | internal/queryjob/worker_service.go:296-325 | where no fault falls between a confirmed publish and its ACK, every step keeps one carrier per job and the attempt bookkeeping |
| CleanRuns.ExactlyOneCarrier | internal/queryjob/consumer.go:148-158 | a published job that is not terminal has exactly one message not yet handed over (before its first publish see `CleanSystem.AlwaysOneCarrier`), whose attempt is the recorded count, or one more while a retry is between publish and SetRetrying |
| CleanRuns.BoundedEntries | internal/queryjob/worker_service.go:296-302 | the pipeline is entered at most maxRetries + 1 times, the row written a bounded number of times, no attempt is stale, no job lost |
| CleanRuns.EveryWriteProgresses | internal/queryjob/worker_service.go:105-344 | every write of a job row lowers (retries left, stages left) lexicographically |
| CleanRuns.LoadFindsItsAttempt | internal/queryjob/worker_service.go:122-134 | in clean runs the stale-attempt branch is unreachable |
| CleanSystem.CleanMoveKeeps | internal/queryjob/dispatcher.go:143-173 | every step of the combined system without such faults, on either side, keeps both clean invariants and who is known to whom |
| CleanSystem.AlwaysOneCarrier | internal/queryjob/consumer.go:148-158 | from commit to terminal state a job has exactly one carrier, its unpublished outbox row or one message not handed over, whose attempt is the recorded count, or one more while a retry awaits SetRetrying |
| CleanSystem.EnteredAwaitsMark | internal/queryjob/dispatcher.go:166-173 | an unpublished row whose message entered is leased to the dispatcher about to mark it |
| Results.SubmitterOwns | internal/queryjob/service.go:205-207 | in every state after a submission the job is the submitter's and nobody else's |
| Results.EveryJobWasSubmitted | internal/queryjob/service.go:116-134 | every job of a reachable state was submitted by somebody |
| Results.OutcomeTellsTheRun | internal/queryjob/service.go:162-203 | over all runs every answer holds exactly in its situation, told by submitter, columns and history: no job for anyone but the submitter, an error code for failed, no finish time for unfinished, and age and cache alone for a success that went through all stages |
| Results.OwnerIsServed | internal/queryjob/service.go:162-188 | the submitter of a succeeded job, and nobody else, is served until the recorded expiry unless the entry was evicted |
| Results.UnavailableMeansEvicted | internal/queryjob/service.go:190-203 | RESULT_UNAVAILABLE is seen exactly by the owner of a succeeded job whose entry is gone before its expiry, and then it was evicted |
| Results.ServedIsRecorded | internal/queryjob/service.go:162-188 | where no worker outlives its lease, the rows served are the rows recorded |
| Consumers.Worker.Process | internal/queryjob/worker_service.go:105-157 | the answer to every row it can read, given how each call turns out: a terminal row or a stale attempt is answered nil and left as it was, a row in a stage by retry or dead letter, queued or the matching retry enters the pipeline unless the compare-and-set finds the row moved; nil means a terminal job or a stale attempt, ErrRetryScheduled that a newer message exists, ErrDLQScheduled a terminal job; under any interleaving |
| Consumers.Worker.RunPipeline | internal/queryjob/worker_service.go:161-292 | stops at the first stage that does not end well or whose row was moved by others, with the answer and the row that stage calls for, and succeeds with the rows returned if none does; nil leaves a terminal row whose cached result is kept to its expiry, a retry a row waiting for the next attempt already published, a dead letter a row failed for it; a success went through all stages in order |
| Consumers.Worker.Transition | internal/queryjob/worker_service.go:151-154 | succeeds exactly if the row stands at `from`, moves that row alone, and the worker goes on in the next stage or stops |
| Consumers.Worker.Fail | internal/queryjob/worker_service.go:201-209 | nil means the row is failed with this error code |
| Consumers.Worker.LeaveStage | internal/queryjob/worker_service.go:186-248 | moves on only from a stage that ended well; a retryable error leads to retry or dead letter by the attempts left, a deterministic one to failed with its own code, and a conflict only if the row was moved by others |
| Consumers.Worker.GiveUpStage | internal/queryjob/worker_service.go:186-263 | the answer of a stage that did not end well, by how it ended |
| Consumers.Worker.StoreAndSucceed | internal/queryjob/worker_service.go:265-291 | nil means the row succeeded and its result was cached and is kept to the recorded expiry |
| Consumers.Worker.ScheduleRetryOrFail | internal/queryjob/worker_service.go:296-302 | a confirmed publish gives retry scheduled while attempts are left and dead letter scheduled otherwise, an error exactly if the publish fails or others moved the row; with the row and the published copy each of them stands for |
| Consumers.Worker.ScheduleRetry | internal/queryjob/worker_service.go:307-325 | ErrRetryScheduled means the row waits for the attempt after this one, due retryDelay after the clock reading, that attempt was published, and this delivery is superseded |
| Consumers.Worker.ScheduleDLQ | internal/queryjob/worker_service.go:329-344 | ErrDLQScheduled means the dead letter with this attempt is in the DLQ and the row failed with MAX_RETRIES_EXCEEDED |
| Consumers.Worker.Claim | internal/queryjob/consumer.go:132-164 | the result is the verdict on the table at this moment and decides where the handler goes on; a lease given stands in the row, and otherwise no row changes |
| Consumers.Worker.Handle | internal/queryjob/consumer.go:106-247 | under any interleaving, the outcome is outcomeAck exactly where the protocol stands before an ACK, and then the job was handed over to a newer message or its idempotency row is completed; where others are quiet, the outcome, the idempotency row and the job row for every message and every way the calls turn out, in particular ACK for a finished job |
| Consumers.Worker.RefuseEnvelope | internal/queryjob/consumer.go:107-130 | ACK exactly if the publish was confirmed, and then its copy is in the DLQ; nothing is claimed |
| Consumers.Worker.DeferDelivery | internal/queryjob/consumer.go:148-158 | ACK exactly if the publish was confirmed, and then the same message with the same attempt was just put in the retry queue |
| Consumers.Worker.MarkCompleted | internal/queryjob/consumer.go:210-216 | ACK exactly if the token still stands in the row, which is then completed; nothing else changes in the table |
| Consumers.Worker.MarkRetryScheduled | internal/queryjob/consumer.go:218-227 | ACK exactly if token and processing status still stand, and then the row is resumable |
| Consumers.Worker.DlqDirect | internal/queryjob/consumer.go:252-259 | ACK exactly if the publish was confirmed, and then the copy is in the DLQ |
| Consumers.Worker.DlqThenComplete | internal/queryjob/consumer.go:263-273 | an ACK means the copy is in the DLQ and the idempotency row is completed |
| Consumers.Worker.Serve | internal/queryjob/consumer.go:63-83 | one round of the consumer loop: ACK exactly for outcomeAck unless the ACK fails, only after hand-over or settlement; where others are quiet, the outcome for every message |
| Progress.FinishedIsAcknowledged | internal/queryjob/worker_service.go:111-114 | whoever holds the lease of a finished job can load, complete and ACK, after which the message is gone, the idempotency row completed and the job as it was |
| Progress.DuplicateIsAcknowledged | internal/queryjob/consumer.go:142-146 | a delivery whose row is completed is acknowledged and changes nothing |
| Progress.HeldIsDeferred | internal/queryjob/consumer.go:148-158 | a delivery whose lease is held is replaced by a copy with the same attempt in the retry queue, and nothing else changes |
| Progress.WaitingJobSucceeds | internal/queryjob/worker_service.go:117-154 | a queued job, or one waiting for exactly this attempt, can be brought to success by its lease holder in eight steps, with the row count execution yields |
| Progress.StuckJobIsRetried | internal/queryjob/worker_service.go:136-147 | a job left in a stage goes back to retrying with the next attempt in the retry queue and a resumable row, while attempts are left |
| Progress.StuckJobIsDeadLettered | internal/queryjob/worker_service.go:136-147 | without one it is failed with MAX_RETRIES_EXCEEDED and its row completed |
| Outbox.OutboxRepository.SelectDue | internal/queryjob/outbox.go:127-136 | distinct pending rows past their retry time and publishing rows past their lease, none locked, at most a batch, all of them if fewer |
| Outbox.OutboxRepository.ClaimBatch | internal/queryjob/outbox.go:116-173 | exactly the selected rows, pending past their retry time or publishing past their lease, get the fresh lease, and the returned copies are the updated rows; a row left over is locked or not due unless the batch is full |
| Outbox.OutboxRepository.MarkPublished | internal/queryjob/outbox.go:176-195 | publishes the row exactly if it is publishing under this token |
| Outbox.OutboxRepository.ReleaseWithRetry | internal/queryjob/outbox.go:199-218 | back to pending exactly if the token matches |
| Outbox.OutboxRepository.DeleteOldPublished | internal/queryjob/outbox.go:221-236 | deletes only old published rows, at most a batch, all of them if fewer |
| Backoff.BackoffIsCappedDoubling | internal/queryjob/dispatcher.go:194-205 | whatever a platform yields out of range, the delay is min(rounded base * 2^(n-1), max), positive and bounded |
| Backoff.BackoffDoubles | internal/queryjob/dispatcher.go:194-205 | the first delay is min(rounded base, max), and each further one min(twice the one before, max) |
| Backoff.ExactIffBaseSurvives | internal/queryjob/dispatcher.go:194-205 | it is min(base * 2^(n-1), max) for all n if and only if the base is a float64 value or base and image both reach max |
| Backoff.BackoffGrowsToTheCap | internal/queryjob/dispatcher.go:198-204 | non-decreasing, and constant from the first attempt that reaches the cap |
| Dispatch.DeskStep | internal/queryjob/dispatcher.go:119-191 | every step of every dispatcher keeps the outbox invariant |
| Dispatch.ReleaseOnlyPublishing | internal/queryjob/outbox.go:199-218 | a row has a lease token if and only if it is publishing, so a release leaves every other row alone |
| Dispatch.CounterIsExact | internal/queryjob/dispatcher.go:179-191 | attempt_count is the number of effective releases under any interleaving, and a published row's message entered the main queue |
| Dispatch.NeverStranded | internal/queryjob/outbox.go:127-136 | an unpublished row is claimable at the latest max(LeaseTTL, MaxBackoff) after its last write |
| Dispatch.PublishedStays | internal/queryjob/outbox.go:221-236 | published rows never change until deleted, deleted rows do not return, and a row that is gone had its message in the main queue |
| Dispatch.StaleForever | internal/queryjob/outbox.go:176-218 | a superseded ticket changes no row in any continuation |
| Dispatch.ClaimTakesOnlyExpired | internal/queryjob/outbox.go:127-160 | a claim leaves unexpired leases alone and fences off all earlier tickets of the rows it takes |
| OutboxTiming.BackoffIsWaitedOut | internal/queryjob/dispatcher.go:179-191 | after a release at t that took effect no continuation claims the row with a reading before t plus the backoff of its new count |
| OutboxTiming.FreshLeaseProtects | internal/queryjob/outbox.go:127-160 | a fresh lease keeps its row from every other claim with a reading before now + leaseTTL, unless its holder settles the row |
| OutboxTiming.RetentionIsWaitedOut | internal/queryjob/outbox.go:221-236 | a published row is deleted, in whatever continuation, only by a cleanup whose cutoff is later than its publishing |
| DoublePublish.SendsBounded | internal/queryjob/dispatcher.go:143-173 | the message of an event enters the main queue at most 1 + releases + expired-lease takeovers times |
| DoublePublish.EntersAgainIff | internal/queryjob/dispatcher.go:157-173 | a step publishes an event again if and only if a publish on one of its claims enters although an earlier one did, and then an earlier claim was released or ran out |
| DoublePublish.PublishedTwice | internal/queryjob/dispatcher.go:39-40 | under every configuration a run publishes one event twice |
| Dispatchers.Dispatcher.DispatchEvent | internal/queryjob/dispatcher.go:143-173 | a claimed event is published and marked, or released; a confirmed one entered the queue; and what became of the others in hand is kept |
| Dispatchers.Dispatcher.MarkEvent | internal/queryjob/dispatcher.go:166-173 | a confirmed event is marked published under its token, or the failing write leaves it to its lease |
| Dispatchers.Dispatcher.ReleaseEvent | internal/queryjob/dispatcher.go:179-191 | releases with the snapshot count plus one and its backoff |
| Dispatchers.Dispatcher.CleanOld | internal/queryjob/dispatcher.go:208-219 | deletes only rows published longer than the retention ago, at most a batch, all of them if fewer, and touches nothing else |
| Dispatchers.Dispatcher.RunOnce | internal/queryjob/dispatcher.go:119-176 | given which calls fail and whatever others do: exactly the due unlocked rows are claimed, up to the batch; a confirmed event entered the queue and is published unless its write failed or its lease was lost; any other claimed event was released with the same exceptions; and a row keeps the lease only where its write failed |
| WholeSystem.MoveKeeps | internal/queryjob/dispatcher.go:119-176 | every step of the combined system keeps both invariants and the identity of outbox row and job |
| WholeSystem.NothingForgotten | internal/queryjob/repository.go:13-48 | every committed job is terminal, or has an unpublished outbox row with its identity, or its newest message is un-ACKed, or it was lost through the stale-attempt branch |
| SqlValidator.Validator.Check | internal/sqlguard/validator.go:74-83 | accepts if and only if everything the statement contains in visited clauses is decent (allowlisted calls; no variable, marker, window function, INTO, lock or recursion) and every table reference is allowed, and then has collected exactly the physical tables referred to |
| SqlValidator.Validator.CheckResultSet | internal/sqlguard/validator.go:87-100 | the same for a nested result set |
| SqlValidator.Validator.CheckSelect | internal/sqlguard/validator.go:104-136 | the same for a SELECT |
| SqlValidator.Validator.CheckSetOpr | internal/sqlguard/validator.go:139-152 | the same for a set operation |
| SqlValidator.Validator.CheckSelectList | internal/sqlguard/validator.go:155-179 | the same for its branches |
| SqlValidator.Validator.CheckWith | internal/sqlguard/validator.go:184-213 | the same for a WITH clause; the child scope is the parent's with all its names |
| SqlValidator.Validator.CheckJoinNode | internal/sqlguard/validator.go:217-247 | the same for a FROM tree |
| SqlValidator.Validator.CheckTableSource | internal/sqlguard/validator.go:251-264 | the same for a table source |
| SqlValidator.Validator.CheckTableName | internal/sqlguard/validator.go:268-292 | a name passes exactly if a CTE in scope or an allowed table of an allowed schema provides it |
| SqlValidator.Validator.CheckExpr | internal/sqlguard/validator.go:295-302 | the same for an expression |
| SqlValidator.ExprChecker.Enter | internal/sqlguard/visitor.go:21-66 | a skipped node is fully judged, an entered one is admissible itself; each kind of expression is rejected or entered as the allowlist says |
| SqlValidator.ExprChecker.Accept | internal/sqlguard/visitor.go:21-71 | the walk that stops at its first error accepts exactly the expressions with nothing but decent parts and allowed references |
| SqlContents.PermittedIff | internal/sqlguard/validator.go:74-292 | a statement is permitted if and only if it is a query, every part it contains is decent and every table reference allowed, with containment and references defined without the policy |
| SqlContents.ExprPermittedIff | internal/sqlguard/visitor.go:21-66 | the same for an expression under a scope |
| SqlContents.ForbiddenCallRejected | internal/sqlguard/visitor.go:38-42 | a statement that contains sleep, benchmark, load_file or a lock function anywhere in a visited clause is rejected |
| SqlContents.ListedExactly | internal/sqlguard/validator.go:63-70 | the tables listed for a permitted statement are those its references name outside CTEs |
| SqlMeaning.SameRows | internal/sqlguard/validator.go:215-292 | a statement's result depends only on the tables it refers to, in visited clauses or not, and that no earlier definition provides |
| SqlReads.RefMet | internal/sqlguard/validator.go:184-292 | every reference of an accepted statement was met by the checker and resolved as its scope says |
| SqlReads.ListedIsAllowed | internal/sqlguard/validator.go:63-70 | every listed table is in the allowlist |
| SqlReads.ReadsListedIff | internal/sqlguard/validator.go:139-211 | an accepted statement reads only listed tables if and only if its CTEs are named only after their definition and its unvisited expressions name only listed tables |
| SqlReads.NonInterference | internal/sqlguard/validator.go:74-292 | two databases that agree on the listed tables give an accepted statement of that kind the same result |
| SqlReads.ForwardReadsUnlisted | internal/sqlguard/validator.go:193-211 | an accepted statement whose result is an unlisted table |
| SqlReads.UnvisitedReadsUnlisted | internal/sqlguard/validator.go:139-152 | an accepted set operation whose ORDER BY makes its result depend on an unlisted table |
| SqlLimit.Statement.RewriteLimit | internal/sqlguard/rewrite.go:21-60 | rejected, with nothing changed, exactly if it is no query or its LIMIT has no literal count or an offset that is not a literal of at most maxRows; otherwise rewritten, and the limit applied is the lesser of count and maxRows, or maxRows without a LIMIT |
| SqlLimit.RewrittenIff | internal/sqlguard/rewrite.go:21-60 | the same condition on the syntax alone, for the statement after the rewrite |
| SqlLimit.Statement.VerifyOutermostLimit | internal/sqlguard/rewrite.go:65-81 | holds exactly if a literal count in 1..maxRows is present |
| SqlLimit.RewriteKeepsPrefix | internal/sqlguard/rewrite.go:21-60 | the rewritten statement returns exactly the first maxRows rows of the original, at most the reported limit of them |
| SqlLimit.RewriteKeepsOccurrences | internal/sqlguard/guard.go:101-107 | the checker looks at nothing the rewrite touches |
| SqlLimit.RewriteIsStable | internal/sqlguard/rewrite.go:21-81 | the range check then fails exactly on LIMIT 0, and a second rewrite changes nothing |
| SqlGuard.TableList | internal/sqlguard/validator.go:63-70 | the ascending listing of the collected tables |
| SqlGuard.ListingUnique | internal/sqlguard/validator.go:63-70 | a set of tables has one ascending listing |
| SqlGuard.PrecedesIff | internal/sqlguard/validator.go:63-70 | one name precedes another if and only if it is smaller at the first position where they differ, or a proper prefix |
| SqlGuard.Validate | internal/sqlguard/guard.go:62-115 | validated exactly if the check, rewrite, restore, re-check pipeline accepts, with its normalized SQL, the type of its root, tables and limit |
| SqlGuard.RecheckRejectsOnlyLimitZero | internal/sqlguard/guard.go:87-107 | with parse after restore the identity on parsed statements and their rewrites, the pipeline accepts if and only if the check passes, the LIMIT is plain and its count is not 0 |
| SqlGuard.ValidateIdempotent | internal/sqlguard/guard.go:62-115 | validating the normalized SQL yields the same SQL, limit, type and tables |
| SqlGuard.NormalizedMeaning | internal/sqlguard/guard.go:46-61 | the normalized SQL returns the first maxRows rows of the original, between 1 and maxRows as reported, and they depend on the listed tables alone |
| Executor.Execute | internal/queryexec/executor.go:59-87 | the first maxRows rows, an error exactly if one is met before the cap or at the end |
| Executor.CapDropsNothing | internal/queryexec/executor.go:59-87 | on a rewritten statement the executor's own cap at the same maxRows drops no row |

## Left out

- I/O: GORM, MySQL, AMQP dialing and topology, Redis, HTTP; each SQL transaction is one atomic step on a map, queues are collections of messages.
- Database errors: a failing statement is a worker that stops before its write; a write that was applied although an error came back is one that stops after it.
- Clocks: one monotone clock for all machines; a worker may act on an earlier reading of it. Message ids and lease tokens are fresh.
- Confirmed publishes in `Delivery` and `Dispatch` have entered the queue and any other may enter at once, later or never; `Publisher.ConfirmPub.Publish` derives this from the order of broker frames. That the broker does not lose a confirmed message is assumed.
- The job-not-found and unclaimed dead-letter paths are modelled but unreachable, as jobs are never deleted and only the system publishes.
- Malformed JSON bodies: no system message has one; its route to the DLQ is the one of an invalid envelope.
- Goroutines and tickers: lease renewal is a step that may or may not happen before expiry; graceful shutdown is a stop between two steps.
- Columns without influence on control flow: generated SQL, durations, error messages, last_error, payload text, created_at and updated_at. The attempt column of processed_messages is written and never read.
- LLM calls, schema reading, validation and query execution are inputs of the worker: success, retryable, deterministic or cancelled; `internal/llm` is not part of this model, and the worker's constructor call in `cmd/worker/main.go:119-124` differs from the current signature.
- The API publisher `Publish` of publisher.go, which nothing calls, and the validation branches of `Submit`.
- The TiDB parser and restorer: parameters, with parse after restore the identity assumed on the trees the parser produces and on these with the outermost LIMIT rewritten.
- LIMIT operands that are not literals are left uninterpreted, and table samples and `AS OF` clauses, which MySQL does not have, are not part of the syntax tree.
- SqlMeaning.SameRows: correlation of a subquery with grouped outer values, LATERAL and sessions are not distinguished; results are functions of the statement and the tables.
- Names are compared as the parser's lower-cased forms; `strings.ToLower` is modelled on ASCII.
- Backoff.BackoffIsCappedDoubling: stated for a positive base and a positive cap; for other bases the model still gives the code's value.
- Cell conversion of the executor, authentication, data sources, encryption, health checks and the web UI.
- Deleting a data source with active jobs: its status list omits retrying (`internal/datasource/repository.go:180`), so the natural invariant does not hold; it is outside this model.

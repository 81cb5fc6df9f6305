# GoTaskFlow: a verified model of the task pipeline

GoTaskFlow is a distributed task queue. A gateway stores a task in Redis and Postgres and publishes it to
`tasks.pending`; a dispatcher routes it to the topic of its type, or to the dead-letter queue; a worker executes it
with retries and moves it to DONE or DEAD; a scheduler, elected through a Redis lease, fires cron jobs into the same
pipeline. This project models those services and proves what they keep over every run: where a task can be, when a
handler is called again, when two scheduler instances can overlap, how many tasks a limiter lets through.

## How the model is built

* `Domain`, `Backend`: one `World` value holds the Redis status and metadata keys with their expiry, the Postgres rows,
  the Kafka logs, the handler calls and the clock. An `Effect` changes it under a `Reply`: applied, applied with the
  acknowledgement lost, or refused, after any delay. A service's code is a program, a sequence of effects each of which
  may end it on an error.
* `Retry`, `Worker`, `Dispatcher`, `Gateway`, `Scheduler`, `Consumer`, `Carrier`, `RateLimiter`: the services in their
  own imperative form (classes, loops, in-place filtering of an array), each method proved to do what a program or a
  function says.
* `Redelivery`: what decides a single delivery.
* `Pipeline`, `SchedulerRuns`: state machines that interleave those same programs with faults, stops and the clock; the
  main theorems are about all their runs. `Idempotency`, `LateWrites` and `Shutdown` state theirs on the `Pipeline`
  machine.
* `Losses`, and the last parts of `LateWrites`, `Shutdown` and `SchedulerRuns`: runs that show where a promise of the
  documentation fails.

Time is in nanoseconds. Identifiers are fresh, as UUIDs are. A message is either a task or bytes that do not decode
(`Raw`); `json.Marshal` followed by `json.Unmarshal` is the identity.

## Assumptions about the libraries

* A Kafka commit stores the offset after the message, whatever was skipped before it; a new session starts at the
  stored offset; a log only grows.
* Redis stores sorted-set scores as float64, rounded to nearest with ties to even; the Go client sends EXPIRE in whole
  seconds. The limiter theorems are stated for exact scores and for float64.
* Redis, Postgres and the services read one clock. The lease scripts and SET NX are atomic.
* `OnceOnly`, `PassesDisjoint` and `NextRunIncreases` take two hypotheses, together `TimelyRun`: each step of a pass comes
  before its lease can have run out, and the cron library's next instant is after the instant it was asked about.

## Where the code and its documentation differ

* "Exponential" backoff (`README.md:10`) is quadratic: base, 4 base, 9 base (`TotalWait`). The products wrap in int64;
  `DelaysExactIff` says exactly when they do not.
* The state diagrams show RETRYING going back to RUNNING (`docs/features.md:90`). RUNNING is written once per delivery
  (`DeliveryTrace`).
* An execution row is documented as one attempt (`internal/domain/task.go:38`). There is one row per delivery, and its
  attempt number is the number of handler calls.
* "Failures are retried, not lost" (`docs/architecture.md:143`), and a message whose handler fails "will be re-delivered"
  (`internal/kafka/consumer.go:23`). Both hold only while no later message of the partition is committed:
  `RedeliveredIff` is the exact condition, `FailedThenPassed` and `FailedRouteLoses` the counterexamples.
* The worker's handler is said to return nil always (`services/worker/worker.go:92`). It returns an error exactly when
  the RUNNING write fails (`ClaimDecides`).
* A dead task is said to reach the DLQ. A refused DLQ publish is ignored, and a stop between the DEAD write and the
  publish leaves a message that the next delivery skips (`RefusedDlqPublishLoses`, `StopAfterDeadLoses`). `Conservation`
  shows that these two and the skipped failure are the only ways to lose a task.
* A SIGTERM is said to drain in-flight tasks (`docs/architecture.md:78`, `docs/features.md:243`). Only the handler has a
  context of its own; the writes, the retry waits and the DLQ publish use the consumer's. A delivery cut off by a
  shutdown is committed with its message unresolved if and only if RUNNING was acknowledged, no call returned nil and
  the DLQ publish comes after the cut (`CutOffIff`, `ShutdownLoses`). A success that is cut off is not lost, but it
  reads as RUNNING or RETRYING (`CutReads`, `ShutdownHidesSuccess`).
* The idempotency guard lasts as long as the status key: `RerunsAfterExpiry` is the exact condition. Within that time it
  protects a finished task from every redelivery (`SettledStaysPut`, `OnceWithinTtl`), but not two workers that take the
  message up together (`TwoAtOnceCallTwice`).
* The dispatcher writes QUEUED after it has published, so that write can land after the worker's last one. Without any
  fault a finished task then reads QUEUED (`FinishedReadsQueued`), and a redelivery executes it again
  (`FinishedRunsAgain`). `TerminalIffNoLateQueued` is the exact condition.
* A status read reports `attempts` (`services/api-gateway/handler/grpc.go:131`). No ending writes it to the table, so once
  the metadata has expired the answer falls back to the row's value from the submission (`FinishedAnswer`,
  `AfterBothExpire`).
* A standby is said to take over within 30 s (`docs/features.md:236`). The bound is 45 s and it is tight (`Takeover`,
  `TakeoverBoundTight`).
* The limiter is said to allow `limit` events per window. Two calls in one nanosecond count once
  (`SameInstantCountsOnce`), and float64 scores cost up to 256 ns of the window (`FloatBound`, `FloatBoundTight`).

## Model

| member | source | states |
|---|---|---|
| `Pipeline.Conservation` | services/worker/worker.go:93-262 | in every run of any number of submitters, dispatchers and workers, with refusals, lost replies, failed commits and stops anywhere, a task that reached `tasks.pending` is still to be delivered, was handled with nil, is in the DLQ, or is about to be sent there by a live worker; otherwise a commit skipped its failure, a worker stopped between DEAD and the DLQ publish, or that publish was refused |
| `Pipeline.GentleConservation` | docs/architecture.md:143-143 | when replies are acknowledged and no worker stops between DEAD and its DLQ publish, no task is ever lost, even though commits fail and processes stop |
| `Pipeline.GentleIsClean` | services/worker/worker.go:232-262 | such runs contain none of the three faults |
| `Pipeline.NextKeepsInv` | services/worker/worker.go:93-262 | every single action of any process keeps the pipeline invariant |
| `Pipeline.RunKeepsInv` | services/worker/worker.go:93-262 | the invariant holds in every reachable state |
| `Pipeline.HoldingKept` | services/worker/worker.go:232-262 | the last promise of a DLQ message is kept, or broken by exactly a refusal or a stop |
| `Pipeline.TerminalWriteEarned` | services/worker/worker.go:205-262 | DONE is stored only after a handler call that returned nil, DEAD only with the DLQ publish still to come from the same worker |
| `Pipeline.StoredStatusEarned` | internal/domain/task.go:9-21 | in every run a stored DONE means the handler returned nil; a stored DEAD means the message is in the DLQ, held by a worker about to send it there, or was lost to one of the two DLQ faults; FAILED is never stored |
| `Pipeline.ProgramReady` | services/worker/worker.go:93-203 | whatever the guard read, the worker's program either resolves the message or finds it resolved |
| `Pipeline.RouteReady` | services/dispatcher/dispatcher.go:58-130 | the dispatcher's program passes the message on before anything else |
| `Pipeline.RecordFate` | internal/kafka/consumer.go:54-98 | every record of a non-DLQ topic is waiting, was skipped by a commit after an error, or its handler returned nil |
| `Losses.RefusedDlqPublishLoses` | services/worker/worker.go:256-258 | for every task whose delivery ends DEAD, with a handler or without, a run that loses it through a refused DLQ publish and nothing else |
| `Losses.CutOffLoses` | services/worker/worker.go:137-262 | the same for refusals from any effect on, after RUNNING and up to the DLQ publish: no error, both messages committed, the task lost |
| `Losses.StopAfterDeadLoses` | services/worker/worker.go:118-135 | for every such task and every stop between the DEAD write and the publish, a run that loses it because the next worker skips the message; nothing else goes wrong |
| `Losses.FailedRouteLoses` | internal/kafka/consumer.go:74-96 | a run where a task is lost because the dispatcher's publish failed and the next message of the partition was committed |
| `Losses.Performs` | services/worker/worker.go:137-262 | beside any other processes and under any replies, a handler performs the next n effects of its program and changes nothing else but, for a refused DLQ publish, the record of it |
| `Shutdown.UnresolvedIff` | services/worker/worker.go:137-262 | under any replies, an executing delivery returns nil with its message neither handled nor passed on if and only if RUNNING was acknowledged, no call returned nil and the DLQ publish was refused |
| `Shutdown.CutOffIff` | docs/architecture.md:78-78 | for a delivery cut off by a shutdown: if and only if the cut comes after RUNNING and before the DLQ publish, and no call returned nil |
| `Shutdown.StoredTerminalIff` | services/worker/worker.go:205-240 | after such a delivery the stored status is terminal if and only if the cut came after the terminal write, and RUNNING if it came right after RUNNING |
| `Shutdown.CutReads` | services/api-gateway/handler/grpc.go:102-139 | what a task reads when its terminal write was refused, handled or not: a status that is not terminal while the key lives, and the record from before the delivery after that |
| `Shutdown.ShutdownLoses` | docs/architecture.md:146-146 | for every task with a handler whose calls all fail and every such cut, a run that loses it with no error, no stop and nothing else wrong |
| `Shutdown.ShutdownHidesSuccess` | docs/architecture.md:146-146 | for every task whose handler succeeds and every cut before the DONE write, a run that commits everything and never stores a terminal status |
| `Worker.Worker.ProcessMessage` | services/worker/worker.go:93-203 | a delivery performs exactly the effects of `Program` for what the guard read, returns its error, and leaves the in-flight gauge as it was |
| `Worker.Worker.RunTask` | services/worker/worker.go:137-203 | an error of the RUNNING write ends the delivery; otherwise the whole body follows |
| `Worker.Worker.RunBody` | services/worker/worker.go:152-203 | the retries and then the ending that their result selects, no error returned |
| `Worker.Worker.DoFinishSuccess` | services/worker/worker.go:205-230 | DONE, the metadata with attempts and completion time, one execution with the attempts, status, worker, duration and time, and the row, each despite failures of the others; nothing published |
| `Worker.Worker.DoFinishFailure` | services/worker/worker.go:232-262 | the same with DEAD and no completion time, and then the raw message on one partition of the DLQ, each despite failures of the others |
| `Worker.DeliveryTrace` | services/worker/worker.go:137-262 | with m the larger of 1 and maxRetries + 1, an executing delivery calls the handler k times, 1 <= k <= m: up to the first success, cancelled wait or m-th call and no further; it writes RUNNING, RETRYING once per callback, then DONE if the last call succeeded and DEAD otherwise; records one execution with attempt k, that status and the worker, duration and time of the delivery; and publishes the raw message to the DLQ exactly when it ends DEAD |
| `Worker.FinishRecords` | services/worker/worker.go:179-262 | the effects of the ending in order: the status, the metadata with the number of calls as attempts and, after a success, the completion time, the execution, the row, and for a failure the DLQ message |
| `Worker.FinishTrace` | services/worker/worker.go:205-262 | the ending's status, row and DLQ message, for both endings |
| `Worker.BodyTrace` | services/worker/worker.go:152-203 | the calls and RETRYING writes, then the ending |
| `Redelivery.HandlerCalledIff` | services/worker/worker.go:93-141 | the handler is called if and only if the message decodes, no readable unexpired DONE, FAILED or DEAD is stored, a handler exists and the RUNNING write is acknowledged |
| `Redelivery.ClaimDecides` | services/worker/worker.go:137-141 | an executing delivery returns an error if and only if the RUNNING write fails, and then does nothing else |
| `Idempotency.SettledStaysPut` | services/worker/worker.go:118-124 | from any state in which a task is finished, in any continuation of all processes up to the expiry of its status, with any number of redeliveries to workers: no handler call, no status, metadata or row write, no execution, and no message of the task beyond the copies injected from outside |
| `Idempotency.SettledInEveryRun` | services/worker/worker.go:118-124 | the same for every run and every continuation of it |
| `Redelivery.Settles` | services/worker/worker.go:205-262 | an executing delivery whose writes succeed leaves the terminal status with a full TTL from its write |
| `Idempotency.OnceWithinTtl` | docs/architecture.md:70-70 | one delivery among all other processes: its calls, counted exactly, are the only calls of the task from its start to the expiry of its terminal write, however often the message is redelivered after that write; the stored status is that write |
| `Idempotency.OnceInEveryRun` | docs/architecture.md:70-70 | the same for every run that contains such a delivery |
| `LateWrites.OnceHappens` | services/worker/worker.go:93-203 | for every task whose handler succeeds there is such a run, without any fault |
| `Idempotency.RunStaysFinished` | services/worker/worker.go:118-141 | the invariant behind both: a finished task stays finished, for all effects or for calls and status writes only |
| `Idempotency.DeliveryRun` | services/worker/worker.go:137-203 | whatever the others do, the calls a delivery has made and the calls it has left add up |
| `Idempotency.TerminalIsFinish` | services/worker/worker.go:179-262 | the terminal status is written once per delivery, where its ending starts, and no call or status write follows it |
| `Redelivery.RerunsAfterExpiry` | internal/redis/state_store.go:14-17 | a readable delivery of a settled task calls the handler if and only if the status key has expired by then |
| `Redelivery.LateQueuedReruns` | services/dispatcher/dispatcher.go:113-116 | a QUEUED write over any settled status makes the next delivery call the handler again |
| `LateWrites.TerminalIffNoLateQueued` | services/dispatcher/dispatcher.go:105-116 | in every run in which workers take the task up one at a time with a working, unexpired guard read, the stored status is terminal if and only if a terminal status was written and no QUEUED write followed it |
| `LateWrites.StoredIsLastWrite` | internal/redis/state_store.go:53-59 | in every run the stored status is the last status write that landed |
| `LateWrites.FinishedReadsQueued` | services/dispatcher/dispatcher.go:105-116 | for every task a run without any fault, every reply acknowledged and every commit stored, whose handler returned nil, whose two messages are committed, and which is stored and read as QUEUED |
| `LateWrites.FinishedRunsAgain` | services/dispatcher/dispatcher.go:105-116 | the same with one failed commit: the handler is called a second time after it returned nil |
| `LateWrites.TwoAtOnceCallTwice` | services/worker/worker.go:118-141 | two workers that take the message up before either has finished call the handler twice, without any fault |
| `LateWrites.Drains` | services/worker/worker.go:205-262 | beside any other processes, a handler whose replies are acknowledged does exactly what is left of its program |
| `Redelivery.CallsMade` | services/worker/worker.go:167-177 | a delivery that ends without error makes every call its program asks for |
| `Redelivery.NoAbortNoError` | services/worker/worker.go:205-262 | writes whose errors are only logged all take place |
| `Retry.Do` | pkg/retry/retry.go:28-57 | with m the larger of 1 and MaxAttempts, the number k of calls satisfies 1 <= k <= m, the k-th succeeds or has its wait cancelled or is the m-th, and none before it succeeds or is cancelled; nil, the last error or the cancellation accordingly; the sums of the handler times and waits; the counter shared by the closures ends at k |
| `Retry.Loop` | pkg/retry/retry.go:33-56 | the loop stops at the first stopping attempt and at no earlier one |
| `Retry.Turn` | pkg/retry/retry.go:34-55 | one attempt with its callback and its wait, the whole of it or as much as passed before the cancellation |
| `Retry.Closures.Fn` | services/worker/worker.go:167-177 | one call, counted |
| `Retry.Closures.OnRetry` | services/worker/worker.go:158-166 | the counter is set to the attempt and RETRYING is written |
| `Retry.Last` | pkg/retry/retry.go:28-57 | the attempt it ends at is the first that stops |
| `Retry.LastUnique` | pkg/retry/retry.go:28-57 | that attempt is the only one with this property |
| `Retry.AttemptsTrace` | pkg/retry/retry.go:33-56 | calls that fail up to the last, and one RETRYING per callback, from any attempt on |
| `Retry.AttemptsOrder` | pkg/retry/retry.go:33-56 | the same effects one by one: a call, RETRYING, a call, and so on |
| `Retry.DelaysExactIff` | pkg/retry/retry.go:49-54 | no delay wraps in int64 if and only if the largest one fits |
| `Retry.Wrap64Congruent` | pkg/retry/retry.go:49-49 | what wraps is off by a multiple of 2^64 |
| `Retry.OneSecondBound` | pkg/retry/retry.go:20-27 | with the default base that is at most 96039 attempts |
| `Retry.TotalClosedForm` | pkg/retry/retry.go:20-27 | the waits before attempt k sum to base (k-1) k (2k-1) / 6 |
| `Retry.TotalWait` | pkg/retry/retry.go:20-57 | uncancelled, k calls wait base (k-1) k (2k-1) / 6 in all |
| `Retry.RetryPhaseBound` | docs/features.md:149-149 | with r retries and handlers within the timeout the retry phase lasts at most (r+1) timeouts plus the closed form, cancelled or not |
| `Consumer.Subscribe` | internal/kafka/consumer.go:54-98 | while producers add to the log, consecutive messages from the stored offset are handed out whatever the handler answers, until the turns or the messages run out; the stored offset is that of the last nil answer whose commit succeeded |
| `Consumer.CommittedIsMax` | internal/kafka/consumer.go:52-98 | over all restarts the stored offset is one past the largest offset that was answered nil and committed |
| `Consumer.RedeliveredIff` | internal/kafka/consumer.go:22-24 | a later session hands out an offset if and only if it gets that far and no committed success is at or past it |
| `Consumer.CommittedGrows` | internal/kafka/consumer.go:54-98 | further sessions never move the stored offset back |
| `Consumer.PassedForGood` | internal/kafka/consumer.go:74-96 | an offset at or below a committed success is never handed out again |
| `Consumer.CommittedWasDelivered` | internal/kafka/consumer.go:52-53 | every offset below the stored one was handed to the handler: delivery at least once |
| `Consumer.FailedThenPassed` | internal/kafka/consumer.go:22-24 | but not processing at least once: whatever came before, a failure followed in its session by a stored success is handed out by no later session |
| `SchedulerRuns.LeaderSeparation` | services/scheduler/scheduler.go:94-133 | in every run, after a successful lease operation of one instance no other instance succeeds for the whole TTL |
| `SchedulerRuns.PassesDisjoint` | services/scheduler/scheduler.go:84-149 | when passes stay within their lease, a step of one instance comes before the start of the pass to which any later step of another instance belongs |
| `SchedulerRuns.OnceOnly` | services/scheduler/scheduler.go:135-217 | in such runs no next_run_at value of a job fires twice: a publish after a successful firing has loaded a value later than the earlier firing |
| `SchedulerRuns.NextRunIncreases` | services/scheduler/scheduler.go:195-217 | in such runs a job's next_run_at never goes back |
| `SchedulerRuns.StalledPassFiresTwice` | services/scheduler/scheduler.go:135-217 | the timing hypothesis is needed everywhere: from every reachable state in which a pass has loaded a job the table still shows due with that value, some continuation in which the pass outlasts its lease fires the value twice, both times successfully |
| `SchedulerRuns.DueListExists` | services/scheduler/scheduler.go:151-175 | the due-jobs query has an answer in every state |
| `SchedulerRuns.TryCertifies` | services/scheduler/scheduler.go:94-113 | any SET NX, won or lost, shows that some instance succeeded within the last TTL |
| `SchedulerRuns.Takeover` | services/scheduler/scheduler.go:67-113 | while one instance ticks in every check interval, every 45 s hold a successful lease operation |
| `SchedulerRuns.TakeoverBoundTight` | docs/features.md:236-236 | a run with a standby that ticks all along and takes over 1 ns short of 45 s after the leader's last success |
| `SchedulerRuns.NeverDisplaced` | services/scheduler/scheduler.go:115-132 | a leader whose renewals are less than a TTL apart wins each of them, and nobody else wins anything |
| `SchedulerRuns.LeaseCommands` | services/scheduler/scheduler.go:94-133 | the machine's steps are the lease operations of the scheduler's code |
| `SchedulerRuns.RunJobIsRun` | services/scheduler/scheduler.go:177-217 | uninterrupted, the machine's steps for a due job do what runJob does and end as it ends |
| `SchedulerRuns.DueAgainIff` | services/scheduler/scheduler.go:151-217 | whatever happens after a firing, as long as next_run_at is the value it set, the job is in every due list at a time if and only if it was enabled and that value has come |
| `SchedulerRuns.KeepsJobs` | services/scheduler/scheduler.go:202-206 | no run changes a job's type, payload, expression or `enabled` |
| `SchedulerRuns.RunKeepsInv` | services/scheduler/scheduler.go:84-217 | the invariant behind these results holds in every timely run |
| `Scheduler.Scheduler.AcquireOrRenewLeadership` | services/scheduler/scheduler.go:94-133 | true means holding the key for a full TTL from Redis's answer, whatever happens between the two commands; and exactly which commands take effect when one is refused or its reply lost |
| `Scheduler.Scheduler.ProcessDueJobs` | services/scheduler/scheduler.go:135-175 | a failed query ends the pass with an error and no effect; otherwise every due job is run in order, despite failures of the others and whatever other instances do to the table in between |
| `Scheduler.Scheduler.RunJob` | services/scheduler/scheduler.go:177-217 | publishes a pending task with the job's type and payload, then sets last_run_at and next_run_at and nothing else of this or any other job; fails if and only if the publish, the cron expression or the update does; a failure leaves the job as it was, unless only the reply to the update was lost |
| `Scheduler.DueQuery` | services/scheduler/scheduler.go:151-175 | a job is in the answer if and only if it is enabled and has no next_run_at or one that has come; each once, never-run jobs first and the rest by next_run_at |
| `Scheduler.PassFires` | services/scheduler/scheduler.go:135-149 | in a pass, a due job that no other instance touches gets exactly the two times of its own firing, or stays as it was when that fails |
| `Scheduler.PassSpares` | services/scheduler/scheduler.go:135-149 | a job that is not due is left alone |
| `Scheduler.PassPublishes` | services/scheduler/scheduler.go:135-194 | one task per due job, in order and with its type and payload |
| `RateLimiter.Limiter.Allow` | internal/redis/rate_limiter.go:34-54 | prunes, adds and counts the call itself, denied or not; allowed if and only if Redis answered and the count is within the limit |
| `RateLimiter.RefinesLog` | internal/redis/rate_limiter.go:34-54 | after any calls the sorted set is the filter of the whole log to the window, denied calls included |
| `RateLimiter.CallRefines` | internal/redis/rate_limiter.go:40-47 | one more call keeps that refinement |
| `RateLimiter.ExactWindow` | internal/redis/rate_limiter.go:35-45 | with exact scores it is the distinct call times in (now - window, now] |
| `RateLimiter.ExactAllowedIff` | internal/redis/rate_limiter.go:34-54 | with exact scores a call is allowed if and only if at most `limit` instants of its window saw a call |
| `RateLimiter.FloatWindow` | internal/redis/rate_limiter.go:35-45 | with float64 scores, between 2006 and 2043, nothing older than the window is kept, and nothing younger than the window less 256 ns is missing |
| `RateLimiter.ExpiryNeverMatters` | internal/redis/rate_limiter.go:46-47 | the key's expiry never changes what is stored at a call |
| `RateLimiter.TtlCoversWindow` | internal/redis/rate_limiter.go:46-47 | the expiry sent covers the window and is twice the window in whole seconds, rounded down unless that is none |
| `RateLimiter.ExactBound` | internal/redis/rate_limiter.go:24-54 | with exact scores, at most `limit` calls are allowed in every half-open interval of one window |
| `RateLimiter.FloatBound` | internal/redis/rate_limiter.go:24-54 | with float64 scores, in every half-open interval of one window less 256 ns |
| `RateLimiter.FloatBoundTight` | internal/redis/rate_limiter.go:42-43 | for every limit of at least one and every window of at least `limit` + 256 ns, an interval 1 ns longer can let `limit` + 1 calls through |
| `RateLimiter.AllowedInstants` | internal/redis/rate_limiter.go:34-54 | calls at equal instants included, at most `limit` instants see an allowed call |
| `RateLimiter.SameInstantCountsOnce` | internal/redis/rate_limiter.go:42-43 | two calls in the same nanosecond are one member, and a limit of one allows both |
| `RateLimiter.ScoreMonotone` | internal/redis/rate_limiter.go:35-43 | rounding to float64 never reverses two timestamps |
| `RateLimiter.RoundEvenNearest` | internal/redis/rate_limiter.go:42-43 | a score is a multiple of the float64 spacing, none is nearer, and ties go to the even one |
| `RateLimiter.ApartByMoreThanAnUlp` | internal/redis/rate_limiter.go:35-43 | timestamps more than 256 ns apart have different scores |
| `RateLimiter.ApartByOneUlp` | internal/redis/rate_limiter.go:35-43 | timestamps exactly 256 ns apart may have the same score |
| `Dispatcher.Dispatcher.Route` | services/dispatcher/dispatcher.go:58-121 | the message goes to the DLQ if and only if it does not decode, has no type or is denied, and otherwise to the topic of its type; that partition grows by it and no other by anything; an error if and only if not acknowledged; QUEUED is written only after that; denied if and only if the limiter answers and counts more than the limit |
| `Dispatcher.Dispatcher.ToDLQ` | services/dispatcher/dispatcher.go:124-130 | the raw message to the DLQ and nothing else |
| `Dispatcher.Dispatcher.ToWorker` | services/dispatcher/dispatcher.go:105-120 | the raw message to its type's topic, then QUEUED if that succeeded |
| `Dispatcher.RouteOnce` | services/dispatcher/dispatcher.go:58-130 | a routing fails if and only if its publish does, and exactly one partition grows, by the message itself, unless the publish was refused |
| `Dispatcher.RouteAllConserves` | services/dispatcher/dispatcher.go:58-130 | over any sequence each partition grows by exactly the messages bound for it, in order and unchanged |
| `Dispatcher.TypedTopics` | services/dispatcher/dispatcher.go:24-26 | a worker topic holds only tasks of its type, so a worker registered for the type never takes the no-handler path |
| `Dispatcher.LandedTyped` | services/dispatcher/dispatcher.go:105-111 | what lands on a worker topic decodes to its type |
| `Dispatcher.AdmissionBound` | services/dispatcher/dispatcher.go:88-103 | in an interval whose entries retain each other, at most `limit` messages of a type reach the worker topic, plus one per limiter error |
| `Dispatcher.ExactAdmissionBound` | services/dispatcher/dispatcher.go:88-103 | with exact scores that is every half-open interval of one window |
| `Dispatcher.FloatAdmissionBound` | services/dispatcher/dispatcher.go:88-103 | with float64 scores, every half-open interval of one window less 256 ns |
| `Dispatcher.DeployedAdmissionBound` | internal/redis/rate_limiter.go:46-47 | the same with the expiry the limiter really sets, so with no assumption about the key |
| `Dispatcher.KeyIsRun` | services/dispatcher/dispatcher.go:88-103 | calls for other types never touch a type's key |
| `Dispatcher.VerdictExact` | services/dispatcher/dispatcher.go:88-103 | a limiter that answers admits a message if and only if the log of its type's calls, this one included, allows it |
| `Dispatcher.AdmittedIsAllowed` | services/dispatcher/dispatcher.go:88-103 | a message the limiter admits is an allowed call of its type's own log |
| `Domain.WorkerTopicsDistinct` | services/dispatcher/dispatcher.go:19-26 | types have different topics, none of them the pending or the dead-letter one |
| `Gateway.Gateway.SubmitTask` | services/api-gateway/handler/grpc.go:42-100 | accepted if and only if type and payload are given and the metadata, the status and the message are acknowledged; then metadata, `tasks.pending` and, unless its insert failed, the table hold the task requested: its type and payload, pending, unattempted, both times those of the call; a request without type or payload changes nothing |
| `Gateway.SubmitStores` | services/api-gateway/handler/grpc.go:42-100 | the same of the specification the pipeline runs |
| `Gateway.PreparedBeforePublish` | services/api-gateway/handler/grpc.go:42-100 | nothing is published before the metadata and the PENDING status are stored and acknowledged; the table row may be missing only if its insert was refused |
| `Gateway.SubmitPublishes` | services/api-gateway/handler/grpc.go:42-100 | a successful submission is on `tasks.pending`; without lost acknowledgements an unsuccessful one is not |
| `Gateway.Gateway.BulkSubmitTasks` | services/api-gateway/handler/grpc.go:173-202 | a response exists if and only if the stream ended; its int32 counts and identifiers are those of the submissions |
| `Gateway.BulkAccounting` | services/api-gateway/handler/grpc.go:172-202 | accepted plus failed is the stream's length; every accepted identifier is on `tasks.pending`, and without lost acknowledgements nothing else of the stream is; the identifiers keep the stream's order |
| `Gateway.BulkTurn` | services/api-gateway/handler/grpc.go:185-197 | each request is accepted by itself, if and only if it is valid and its three acknowledgements arrive |
| `Gateway.BulkAcceptsValid` | services/api-gateway/handler/grpc.go:172-202 | with every reply acknowledged every valid request is accepted |
| `Backend.PublishAdds` | internal/kafka/producer.go:38-55 | a message is on a topic after a publish if and only if it was before or it is the one published and not refused |
| `Gateway.Gateway.GetTaskStatus` | services/api-gateway/handler/grpc.go:102-139 | from lookups at three moments: exactly when the answer is found, not found or an internal error; identifier and type of the record, its status unless one is stored, its attempts within int32, its times in whole seconds and the duration in truncated milliseconds, the last two only if it has completed |
| `Gateway.AnswerFields` | services/api-gateway/handler/grpc.go:102-139 | the same of the function the read theorems speak of |
| `Gateway.TerminalReadsStable` | services/api-gateway/handler/grpc.go:102-139 | once the terminal status is written, a read whose three lookups fall anywhere among the worker's remaining writes and other processes' steps answers with it, until the key expires, and after that once the other writes are done; from live metadata it answers with the attempts and completion time of the finish |
| `Gateway.FinishedAnswer` | services/api-gateway/handler/grpc.go:127-137 | while its metadata lives, a finished task is answered with the number of handler calls and, after a success, its completion time; its row still has the attempts it had before |
| `Gateway.AfterBothExpire` | services/api-gateway/handler/grpc.go:102-139 | when both Redis keys are gone the answer has the terminal status if and only if the task has a row, and then the attempts of that row, which no ending updates |
| `Gateway.WorkerFinishes` | services/worker/worker.go:205-262 | both endings of the worker are the finish those results speak of |
| `Gateway.ProceedAllKeeps` | services/worker/worker.go:205-262 | a finish in progress keeps its writes under any interleaving |
| `Gateway.Gateway.StreamTaskUpdates` | services/api-gateway/handler/grpc.go:142-170 | the updates sent are the status responses of the worlds that successive polls find, with the stored status where there is one; a terminal one is sent, is the last and ends the stream; cancellation and errors end it exactly where they happen |
| `Carrier.HeaderCarrier.Get` | internal/kafka/carrier.go:11-18 | the first header with the key, or the empty string |
| `Carrier.HeaderCarrier.Set` | internal/kafka/carrier.go:21-29 | the other headers in order, then the new one, although the filter overwrites the array it reads |
| `Carrier.HeaderCarrier.Keys` | internal/kafka/carrier.go:32-38 | the key of every header, in order |
| `Carrier.FilterInPlace` | internal/kafka/carrier.go:22-27 | the in-place filter keeps exactly the headers with other keys, in order |
| `Carrier.SetThenGet` | internal/kafka/carrier.go:11-29 | the set key reads the new value, other keys read as before, distinct keys stay distinct |
| `Carrier.CarrierIsMap` | internal/kafka/carrier.go:11-38 | a carrier built by Sets is the map of the last value per key: same reads, same keys, once each |
| `Carrier.WithoutKeys` | internal/kafka/carrier.go:22-27 | the filter removes the key and no other |
| `Carrier.WithoutConcat` | internal/kafka/carrier.go:22-27 | the filter works header by header, so it keeps the others in order and with their repetitions |
| `Carrier.LookupWithout` | internal/kafka/carrier.go:22-27 | reads of other keys survive the filter |
| `Backend.Services.SetStatus` | internal/redis/state_store.go:53-59 | the key is overwritten for 24 h unless refused; an error if and only if not acknowledged |
| `Backend.Services.GetStatus` | internal/redis/state_store.go:61-70 | the stored status, none once it has expired or when the read fails |
| `Backend.Services.SetTaskMeta` | internal/redis/state_store.go:72-82 | the metadata key is overwritten for 24 h unless refused |
| `Backend.Services.Create` | internal/postgres/repository.go:45-60 | inserts a row with a new identifier; a known one is an error and changes nothing |
| `Backend.Services.UpdateStatus` | internal/postgres/repository.go:62-78 | of an existing row, status and updated_at change and completed_at is set for DONE, FAILED and DEAD and cleared otherwise; everything else of it and every other row stays |
| `Backend.Services.RecordExecution` | internal/postgres/repository.go:80-100 | adds the row; an error when the task has none |
| `Backend.Services.Publish` | internal/kafka/producer.go:38-55 | appends the message to one partition of the topic unless refused; an error if and only if not acknowledged |

## Left out

- Conservation: the three faults are not shown to lose a task each time they occur, because another record of the same message (an earlier delivery, a producer's retry) can still save it; `Losses` gives one run per fault where nothing does.
- Conservation: the limiter's verdict is arbitrary at each routing, so the result covers every limiter; the limiter's own state is in `Dispatcher` and `RateLimiter`.
- Conservation: nothing consumes `tasks.dlq` in this repository, so a message there stays there.
- CutOffIff, ShutdownLoses: a call made on a context that is done is refused; one that still gets through is a lost reply, which `UnresolvedIff` covers.
- BulkAccounting: with a lost acknowledgement a task counted as failed may still be on `tasks.pending`, so the converse is stated for acknowledged replies only.
- FloatWindow, FloatBound: stated for nanosecond clocks between 2^60 and 2^61, the years 2006 to 2043, where float64 values are 256 ns apart.
- OnceOnly: only a firing that ended successfully is protected; after a lost publish reply or a refused update the job stays due and fires again, as the code does.
- OnceWithinTtl: no other delivery of the task begins before the terminal write, because otherwise the handler can be called twice, as `TwoAtOnceCallTwice` shows.
- SettledStaysPut, OnceWithinTtl: the message is not routed by a dispatcher again, because its QUEUED write would reopen the task, as `FinishedRunsAgain` shows.
- Retry.DelaysExactIff: negative base delays are in `Delay` and `Wait` but not in the closed forms.
- The REST handlers, which repeat the gRPC ones on the same stores.
- The registered handlers themselves: a handler is its outcome and its duration.
- JSON encoding, task payloads, priorities, schedules and results; `ListByStatus`.
- Tracing, metrics and logging, except the header carrier.
- Configuration, command-line flags and the wait group that a shutdown waits for.
- Partition assignment and rebalancing: instances join and leave any partition at any time, several at once.
- Redis eviction and restarts: a key goes only by expiry.

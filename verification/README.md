# Notification dispatcher: verified model

The dispatcher accepts notifications over an API, stores them in Postgres, hands them to RabbitMQ, and lets workers deliver
them to a provider with three delayed retries, a dead-letter queue per channel, a ledger of processed messages and an
admin replay. This project models that at-least-once protocol, the table logic beside it, and the consumer that runs it, and
proves what holds over every run, and exactly when a promise fails.

`dafny verify dfyconfig.toml` verifies everything.

## How it is organised

The delivery protocol, bottom up:

| file | content |
|---|---|
| `domain.dfy`, `keys.dfy` | notifications, wire form, faults; routing keys as real strings |
| `topology.dfy`, `routing.dfy` | the declaration plan and the code that carries it out; where a key leads |
| `world.dfy`, `handle.dfy` | the shared state, the effect of every call on it; `Handle` as single effects and as one step |
| `protocol.dfy` | the step system: insert, publish, pick / perform / settle / crash / redeliver, deliver, expire, cancel, replay, time |
| `placement.dfy`, `ledger.dfy`, `crash.dfy`, `rows.dfy`, `spacing.dfy` | what every run keeps, whatever crashes, fails or is redelivered |
| `cycles.dfy`, `lives.dfy`, `audit.dfy`, `trail.dfy`, `termination.dfy`, `refinement.dfy` | redelivery-free runs: conservation, spacing, audit trail, draining, and the refinement to the provider's answers |
| `gaps.dfy` | what the protocol does not keep, with runs that show it and the exact conditions |

The imperative side: `stores.dfy`, `deliver.dfy`, `queues.dfy`, `replay.dfy` and `service.dfy` hold the repositories,
the publishers, the delivery use case, the replay loop and the API service as classes whose methods are proved against
the functions of `world.dfy` and `handle.dfy`, and against the steps of `protocol.dfy`; `batches.dfy` follows a batch's
summary over a run. `idempotency.dfy`, `listing.dfy`, `pages.dfy`, `consumer.dfy` and `backoff.dfy` are independent of
the protocol.

Conventions. A `Fault` is how one database or broker call ends: `NoFault`; `Before`, an error without effect; `After`,
an error reported although the effect took place (a lost confirm or commit acknowledgement). An `Env` answers all calls
of one handling, a `Choice` those of one effect. A run is a sequence of states joined by enabled steps from the empty
system. Redelivery-free (`CalmRun`) means that no handler is interrupted or loses its channel, and no replay dies
between its publish and its ack; every other fault stays allowed. Event histories (`hist`) exist only for stating
properties.

A process that dies takes its handler along and its message is redelivered (step `Crash`). A channel that is lost redelivers the
message as well but leaves the handler running: it goes on as a detached one, with every effect still to come, beside any number
of further handlings of the same message (step `Redeliver`).

Assumptions about RabbitMQ, which are extensions of AMQP 0-9-1: a message is dead-lettered at the end of its queue's TTL
with the queue's dead-letter exchange and key; a lost channel requeues its unacked messages; a confirm means that the
message is in its queues; an unroutable message is confirmed; the prefetch count set by `basic.qos` without `global`
applies to each subscription anew. Topic routing with keys free of wildcards is equality (section 3.1.3.3 of AMQP
0-9-1). Queues are FIFO. SQL statements are atomic. JSON encoding and decoding are inverse.

## Where the code and its documentation disagree

The model follows the code.

- README.md:93-94 promises that redeliveries do not double-send. Only attempt 0 is looked up in the ledger: `Gaps.CrashAfterSendRepeats`.
- The comment at internal/app/deliver.go:197-201 says the broker requeues after a cancelled context. The consumer nacks without
  requeue and main queues have no dead-letter exchange, so the message is discarded: `Deliver.DiscardedExactly`.
- The comment at internal/adapter/http/handler_admin.go:185-186 says a message whose replay fails stays in the dead-letter queue. It is
  discarded: `Replays.AdminHandler.ReplayDLQ`, `Replays.ReplayedQueues`.
- A crash right after the first ledger insert loses the notification, although the redelivered message is there: `Gaps.CrashAfterMarkLoses`.
- `cancelled` does not stop a queued notification from being sent: `Gaps.CancelledIsSent`.
- The trail in `delivery_attempts` is not one row per call: an attempt whose retry publish took effect but reported an error is
  repeated at the next level without a row: `Gaps.LostConfirmUnrecorded`, `Trails.TrailInLanguage`.
- The comment at internal/adapter/rabbitmq/consumer.go:39-41 calls Concurrency the maximum number of messages processed in
  parallel. With the drain, over the runs of one subscription, this is so only if PrefetchCount is the same:
  `Consumers.SemaphoreExact`. After a restart on the same channel (the broker cancelled the consumer, its
  handlers go on) it is Concurrency + PrefetchCount, for all options: `Consumers.RestartBound`, `Consumers.RestartReaches`.
- README.md:79-80 speaks of three retry queues per channel named `<channel>.retry.L1` to `L3`. There are nine per channel, named
  `<channel>.<priority>.retry.<level>`: `Routing.DeploymentDeclares`.
- internal/app/worker.go:130 says `d <= 0` catches overflow. It does not for a base of 2^34 + 1 ns: `Backoff.OverflowSlipsThrough`. And
  internal/app/worker.go:123 states a formula that stops growing at attempt 30: `Backoff.DelayExact`.
- internal/adapter/postgres/notification_repository.go:182-183 claims one snapshot for both list queries; a read-only transaction
  at the default isolation level does not give one. Pagination is proved on a fixed table.

## Model

| member | source | states |
|---|---|---|
| `Domain.WireRoundTrip` | internal/app/message.go:21-41 | the wire form keeps id, recipient, channel, content, priority and correlation id, and a row comes back from it up to exactly the fields that are not on the wire |
| `Domain.UuidReads` | internal/app/notification_service.go:216-219 | a UUID's text has its four dashes in place and its lower-case digits read back as the UUID |
| `Keys.PriorityFromRoutingKeyExact` | internal/app/deliver.go:315-325 | a priority is read from a key if and only if it is the key's second dot-separated segment |
| `Keys.ResolveOwnKey` | internal/app/deliver.go:333-345 | for a key built from a valid lane the resolved priority is the lane's, whatever the body says |
| `Keys.ResolveExact` | internal/app/deliver.go:333-345 | for any key: its own priority segment, else the body's priority if valid, else "normal" |
| `Keys.ChannelReads` | internal/app/deliver.go:302-309 | the channel of a key is the one it starts with |
| `Keys.ItoaReads` | internal/adapter/postgres/notification_repository.go:242-256 | decimal text of levels and placeholders reads back as its number, without leading zeros |
| `Keys.CutAtDot` | internal/app/message.go:46-51 | dot-joined texts determine their dot-free first part and the rest |
| `Topology.TtlExact` | internal/adapter/rabbitmq/topology.go:171-186 | the int32 TTL argument is the configured time to the millisecond if and only if that fits in 32 bits, for negative times too |
| `Topology.AmqpChannel.DeclareAndBind` | internal/adapter/rabbitmq/topology.go:119-138 | a queue is declared before it is bound; a refusal stops after what was carried out |
| `Topology.DeclareTopologyWith` | internal/adapter/rabbitmq/topology.go:105-232 | the operations carried out are a prefix of the plan, ending at the first refusal, and the whole plan if and only if the call succeeds; wherever they end, no queue has been bound before it and its exchange were declared |
| `Topology.PlanInOrder` | internal/adapter/rabbitmq/topology.go:105-232 | for every topology, each binding of the plan comes after the declaration of its exchange and of its queue |
| `Topology.DeclareLevels` | internal/adapter/rabbitmq/topology.go:169-206 | the innermost loop declares and binds the three retry queues of one lane in order, or stops at the refused operation |
| `Topology.DeclareChannels` | internal/adapter/rabbitmq/topology.go:166-229 | the outer loop completes the plan or stops at the refused operation |
| `Routing.AllProductionBindings` | internal/adapter/rabbitmq/topology.go:56-67 | the nested loops collect the nine bindings, channel by channel, each by falling priority |
| `Routing.DeploymentDeclares` | internal/adapter/rabbitmq/topology.go:105-232 | a deployment declares and binds exactly its places, each with its arguments and its one binding: main queues, retry queues that expire back into their own lane, dead-letter queues |
| `Routing.PlanReads` | internal/adapter/rabbitmq/topology.go:93-229 | ... under these names, keys, TTLs and dead-letter arguments: `<channel>.<priority>`, `<channel>.<priority>.retry.1` to `3`, `<channel>.dlq` |
| `Routing.PlacesCounted` | internal/adapter/rabbitmq/topology.go:162-229 | those are 9 main, 27 retry and 3 dead-letter queues, 39 in all |
| `Routing.NamesDiffer` | internal/adapter/rabbitmq/topology.go:93-100 | queue names are different for different purposes, under any prefix |
| `Routing.KeysDiffer` | internal/adapter/rabbitmq/topology.go:119-229 | on one exchange, binding keys are different for different queues |
| `Routing.Route` | internal/adapter/rabbitmq/topology.go:119-229 | the result is the only place a key can reach, None if and only if there is none |
| `Routing.RoutingExact` | internal/adapter/rabbitmq/topology.go:105-232 | in every deployment a key reaches exactly the queue `Route` names and no other |
| `Routing.LaneRoutes` | internal/adapter/rabbitmq/retry_publisher.go:34-62 | the keys built for a lane, its retries, its re-entry and its dead letters all lead to the queue they are meant for |
| `World.AttemptRoundTrip` | internal/app/worker.go:157-176 | an attempt count survives the x-attempt header if and only if it fits in 32 bits |
| `World.HeaderReads` | internal/app/worker.go:157-176 | an integer header of any type is read exactly if and only if its value fits in 32 bits; an absent or textual one as 0 |
| `Handle.DlqReads` | internal/app/deliver.go:256-264 | the dead letter carries body, attempt, correlation id and channel, and the key it came with, or one rebuilt from channel and body priority if it came with none |
| `Handle.EffectProgress` | internal/app/deliver.go:116-290 | a handling is finitely many effects, however each ends |
| `Handle.RunIsHandle` | internal/app/deliver.go:116-290 | performing the effects one by one is the whole-handling function |
| `Protocol.UninterruptedIsDeliver` | internal/adapter/rabbitmq/consumer.go:155-175 | pick, every effect in turn, settle: together the atomic delivery step |
| `Protocol.EffectCommutes` | internal/app/deliver.go:116-290 | what a handler does neither reads nor disturbs the delivery's own unacked entry |
| `Placement.StepKeeps` | internal/app/deliver.go:229-264 | every step keeps the placement invariant: lane, payload and correlation id of each copy those of its row; attempt 0..3 in main queues, L at retry level L, 3 in the dead-letter queue; provider calls carry the row; nothing unroutable |
| `Placement.EveryRunPlaced` | internal/app/deliver.go:116-290 | that invariant in every state of every run, with any crash, redelivery (also while the earlier handler goes on), fault and replay |
| `Placement.RetryKeeps` | internal/adapter/rabbitmq/retry_publisher.go:25-44 | a retry lands at level attempt + 1 of the message's own lane |
| `Placement.DlqKeeps` | internal/adapter/rabbitmq/retry_publisher.go:48-66 | an exhausted message lands in its own channel's dead-letter queue with its lane's key recorded |
| `Placement.ExpireKeeps` | internal/adapter/rabbitmq/topology.go:173-191 | an expired retry lands in the main queue of its own lane |
| `Placement.RepublishKeeps` | internal/adapter/http/handler_admin.go:169-183 | a replayed message lands in the main queue of its own lane with attempt 0 |
| `Placement.PublishRowKeeps` | internal/app/notification_service.go:211-221 | a published row lands in the main queue of its own lane |
| `Ledger.StepBalanced` | internal/adapter/postgres/processed_repository.go:26-50 | every step keeps the ledger books, including handlers between mark and send and between last send and delete |
| `Ledger.LedgerEquation` | internal/app/deliver.go:156-166 | in every run, with any number of handlers at work on one message: effective marks = effective deletes + membership; attempt-0 sends <= 1 + deletes; each delete has its own failed fourth call |
| `CrashSafety.StepSound` | internal/app/deliver.go:228-289 | no step without lost publishes, cancelled contexts or replays makes an escalated notification unsafe |
| `CrashSafety.RunSound` | internal/app/deliver.go:228-289 | ... nor does any such run |
| `CrashSafety.PublishBeforeAck` | internal/app/deliver.go:228-289 | once a copy with x-attempt >= 1 is confirmed, from then on the provider has accepted or such a copy is queued or out with a handler that holds the delivery; with crashes, lost channels and detached handlers between any two effects |
| `Spacing.StepSpaced` | internal/app/deliver.go:229-244 | every step keeps it that a copy numbered a >= 1 owes its number to a call numbered a - 1, at least the TTL of level a ago once it is back in a main queue |
| `Spacing.EveryRetrySpaced` | internal/adapter/rabbitmq/topology.go:169-191 | in every run, whatever crashes, fails, is redelivered or replayed, a call numbered a >= 1 has an earlier call of the same notification numbered a - 1, at least the TTL of level a before it |
| `Spacing.EveryRunSpacing` | internal/adapter/rabbitmq/topology.go:169-191 | ... and one numbered 0, at least the TTLs of all levels in between before it |
| `Rows.StepStatus` | internal/adapter/postgres/notification_repository.go:268-297 | a step cancels a notification only if it is that cancel and the row was pending, and never sets a row to pending |
| `Rows.StatusHistory` | internal/adapter/postgres/notification_repository.go:70-85 | no run re-enters `pending` or cancels a notification twice |
| `Rows.StatusesPartition` | internal/adapter/postgres/notification_repository.go:147-173 | the four status counts of a batch add up to its rows |
| `Rows.BatchConservation` | internal/adapter/postgres/notification_repository.go:89-179 | in every state of every run the four counts add up to the stored total |
| `Cycles.HandleView` | internal/app/deliver.go:116-290 | one handling makes at most one provider call and leaves no copy or exactly one successor |
| `Cycles.DeliverView` | internal/app/deliver.go:116-290 | one delivery step removes its copy, adds its successor, and touches no other notification |
| `Cycles.SoleCopy` | internal/app/deliver.go:118-289 | a live copy is the only one of its notification |
| `Cycles.StepCyclic` | internal/app/deliver.go:118-289 | every redelivery-free step keeps conservation, the chain of attempts 0,1,2,3,0,... and the place of each copy in it |
| `Cycles.RunCalm` | internal/app/deliver.go:118-289 | ... so every redelivery-free run does |
| `Lives.HandleTables` | internal/app/deliver.go:156-289 | rows, ledger and trail after one handling, branch by branch |
| `Audit.HandleRecords` | internal/app/deliver.go:173-289 | one handling adds a row if and only if its deciding calls succeed; the row reads `success` iff the provider accepted, below number 3 `circuit_open` iff the circuit was open and `retrying` iff it failed otherwise, `dlq` iff it failed at number 3 |
| `Lives.Conservation` | internal/adapter/rabbitmq/consumer.go:164-175 | born = live + delivered + deduplicated + discarded; at most one live copy; sends <= 4 (1 + replays) |
| `Lives.RetrySpacing` | internal/adapter/rabbitmq/topology.go:169-191 | call k is attempt k mod 4 and comes no earlier after its cycle's attempt 0 than the TTLs in between; only the last call can have succeeded |
| `Lives.ProductionSpacing` | internal/adapter/rabbitmq/topology.go:25-31 | with the production TTLs attempts 1, 2, 3 come at least 30 s, 150 s, 750 s after attempt 0 |
| `Lives.NothingLeft` | internal/app/deliver.go:173-184 | after an accepted call no copy is left |
| `Lives.DeliveredIsAbsorbing` | internal/app/deliver.go:173-184 | in redelivery-free runs a delivered notification stays delivered, whatever fails, is cancelled or replayed |
| `Trails.StepStory` | internal/app/deliver.go:173-289 | every redelivery-free step with a working recorder keeps the trail equal to the rows of the told calls, and lets a call that was not told be followed by another only through a lost confirm |
| `Audit.TrailLanguage` | internal/app/deliver.go:182 | a trail of chained calls is in the language: 0,1,2,3,0,..., success only at the end, dlq exactly at a failed number 3 |
| `Trails.TrailIsToldCalls` | internal/app/deliver.go:234-289 | in every redelivery-free run with a working recorder the trail holds exactly the calls whose status update or onward publish reported no error, in order |
| `Trails.TrailSays` | internal/app/deliver.go:182-279 | row j of such a trail belongs to the j-th told call and has its number, and the status that its number and the provider's answer call for, each of the four by an if and only if |
| `Trails.UntoldWentOnUnsurely` | internal/app/deliver.go:241-244 | a call that is missing and yet followed by another was a lost confirm of a retry publish |
| `Trails.TrailInLanguage` | internal/app/deliver.go:279 | the trail is in the language if and only if no missing call comes before a recorded one |
| `Trails.TrailComplete` | internal/app/deliver.go:173-289 | the trail retells all calls but at most the last if and only if no call before the last is missing |
| `Gaps.LostConfirmUnrecorded` | internal/adapter/rabbitmq/publisher.go:61-67 | a run for every notification: the first retry's confirm is lost, so the trail of two calls reads only number 1 |
| `Audit.ByNumberSorts` | internal/adapter/postgres/delivery_attempts_repository.go:56-65 | the listing order is ascending, a permutation, keeps rows of one number in order, and leaves ascending trails as they are |
| `Audit.ListingIsTrail` | internal/adapter/postgres/delivery_attempts_repository.go:56-84 | the listing shows attempts in the order made if and only if at most one cycle is recorded |
| `Termination.StepMeasure` | internal/app/deliver.go:229-264 | each delivery or expiry uses up at least one unit of work; each message fed in adds at most seven |
| `Termination.WorkBound` | internal/adapter/rabbitmq/topology.go:171-206 | broker steps taken + work left <= work before + 7 per message fed in, between any two moments |
| `Termination.Progress` | internal/adapter/rabbitmq/topology.go:171-206 | while anything is outside the dead-letter queues a broker step is enabled, at the latest after waiting |
| `Termination.WorkDone` | internal/app/deliver.go:229-264 | no work is left if and only if only dead letters are left |
| `Termination.StuckExactly` | internal/adapter/rabbitmq/topology.go:171-206 | no broker step is possible now or after any wait if and only if only dead letters are left |
| `Termination.EveryRunDrains` | internal/app/deliver.go:229-264 | every stretch of every redelivery-free run into which nothing is fed takes at most its initial work in broker steps, and has drained everything if it takes that many |
| `Termination.StandstillOnlyDead` | internal/adapter/rabbitmq/topology.go:171-206 | a redelivery-free run stands still if and only if only dead letters are left |
| `Termination.Drains` | internal/app/deliver.go:229-264 | for any answers of provider and stores in each state, deliveries so answered, expiries and waiting lead to a state with only dead letters |
| `Refinement.OneCycle` | internal/app/deliver.go:61 | the fate function: delivered on call c if and only if answer c is the first success and c <= 4; given up if and only if four failures |
| `Refinement.NextCycle` | internal/adapter/http/handler_admin.go:169-183 | a replay opens a fresh cycle on the rest of the answers |
| `Refinement.StepExact` | internal/app/deliver.go:116-290 | every fault-free step keeps status, ledger, trail and copies equal to functions of the provider calls |
| `Refinement.OutcomeStreamRefinement` | internal/app/deliver.go:116-290 | in every fault-free run, queues, ledger and trail show the fate computed from the provider's answers and the number of replays alone, the status is the one those calls and the cancellations granted amount to, and nothing was discarded or skipped |
| `Gaps.CrashAfterMarkLoses` | internal/app/deliver.go:156-165 | a run for every notification: crash after the mark, redelivery skipped, nothing sent, nothing left, row pending |
| `Gaps.LostExactly` | internal/app/deliver.go:156-289 | a delivery leaves its notification neither accepted nor queued if and only if there was no other copy or acceptance and it was skipped, or failed with context cancelled or onward publish lost |
| `Gaps.CrashAfterSendRepeats` | internal/app/deliver.go:152-166 | for every notification and each attempt 1 to 3, a run from the empty system in which the provider accepts that attempt twice |
| `Gaps.RepeatsExactly` | internal/app/deliver.go:152-166 | a delivery calls the provider, accepted before or not, if and only if its attempt is above 0 or the ledger takes its id as new |
| `Gaps.CancelledIsSent` | internal/app/deliver.go:178 | a run for every notification: cancelled while queued, then sent and marked delivered |
| `Gaps.CancelledExactly` | internal/app/deliver.go:173-268 | a delivery leaves a cancelled row cancelled if and only if it makes no call or its answer's status update does not happen |
| `Gaps.ReplayOvertakesDelete` | internal/app/deliver.go:264-274 | a run for every notification: four refused calls, a replay between dead-letter publish and ledger delete, then no further call and no copy left |
| `Deliver.DeliverUseCase.Handle` | internal/app/deliver.go:116-290 | the code equals the whole-handling function on the stores' joint state, and returns nil exactly on the acked exits |
| `Deliver.DeliverUseCase.Accepted` | internal/app/deliver.go:173-184 | the accepted branch equals its part of that function |
| `Deliver.DeliverUseCase.RetryLater` | internal/app/deliver.go:229-254 | the retry branch equals its part; it fails if and only if the publish reports an error, and otherwise records `circuit_open` or `retrying` by the provider's answer |
| `Deliver.DeliverUseCase.DeadLetter` | internal/app/deliver.go:256-289 | the exhausted branch equals its part, in the order publish, status, ledger, trail |
| `Deliver.DeliverUseCase.RecordAttempt` | internal/app/deliver.go:292-299 | a recorder error changes nothing else |
| `Deliver.HandleDelivery` | internal/app/worker.go:48-58 | the worker's adapter handles the message's own key, attempt and correlation id |
| `Deliver.DiscardedExactly` | internal/app/deliver.go:156-264 | a copy is given up if and only if the first mark fails, the status update after an accepted call fails, or the context is cancelled or the onward publish lost after a failed one |
| `Deliver.AckedExactly` | internal/app/deliver.go:116-290 | Handle returns nil if and only if the body is poison, the first attempt is a duplicate, or the calls that decide about the copy report no error |
| `Deliver.PoisonExactly` | internal/app/deliver.go:116-138 | an unparseable body is acked, touches no table, and survives if and only if its dead-letter publish took effect and its key starts with a channel: then in that channel's dead-letter queue, with body, attempt, correlation id and key kept |
| `Stores.ProcessedRepository.MarkIfUnprocessed` | internal/adapter/postgres/processed_repository.go:26-37 | inserts once; says whether the id was new |
| `Stores.ProcessedRepository.DeleteProcessed` | internal/adapter/postgres/processed_repository.go:41-50 | removes the id; no error if absent |
| `Stores.NotificationRepository.UpdateStatus` | internal/adapter/postgres/notification_repository.go:76-85 | sets the status of exactly that row; not found changes nothing |
| `Stores.NotificationRepository.CancelIfPending` | internal/adapter/postgres/notification_repository.go:268-297 | cancels if and only if the row is pending and the update takes effect; tells missing, not pending and database errors of update and existence check apart |
| `Stores.NotificationRepository.Insert` | internal/adapter/postgres/notification_repository.go:38-47 | inserts if and only if no primary, unique or foreign key constraint stops the row |
| `Stores.NotificationRepository.InsertBatch` | internal/adapter/postgres/notification_repository.go:89-131 | all rows and the batch, or nothing |
| `Stores.PlainRowsFit` | migrations/0003_add_batch_id_and_idempotency.sql:3-9 | rows of a batch go in if and only if their ids are new and distinct |
| `Stores.NotificationRepository.GetBatchSummary` | internal/adapter/postgres/notification_repository.go:135-179 | the loop over grouped rows yields, status by status, the number of the batch's rows with it, and the stored total, whatever groups come in which order; an error exactly for an unknown batch, a failing query or rows that cannot be read |
| `Stores.NotificationRepository.GetByIdempotencyKey` | internal/adapter/postgres/notification_repository.go:301-319 | a row with the key if and only if one is stored |
| `Stores.DeliveryAttemptsRepository.RecordAttempt` | internal/adapter/postgres/delivery_attempts_repository.go:24-39 | appends one row, if its notification exists |
| `Stores.DeliveryAttemptsRepository.ListAttempts` | internal/adapter/postgres/delivery_attempts_repository.go:56-84 | exactly the notification's rows, ascending by number, rows of one number in the order they were recorded, or the query's error |
| `Stores.RetryPublisherAdapter.PublishRetry` | internal/adapter/rabbitmq/retry_publisher.go:25-44 | one message with the lane's retry key and attempt header, in the queue that key reaches |
| `Stores.RetryPublisherAdapter.PublishDLQ` | internal/adapter/rabbitmq/retry_publisher.go:48-66 | one message on the channel's key with the original key recorded |
| `Queues.WithoutQueues` | internal/adapter/http/handler_admin.go:158-167 | taking n messages from one queue shortens it by its first n and leaves every other as it was |
| `Replays.AdminHandler.ReplayNext` | internal/adapter/http/handler_admin.go:158-193 | one round: the oldest dead letter is republished with attempt 0 and acked, or, on a publish error, nacked and gone |
| `Replays.AdminHandler.ReplayDLQ` | internal/adapter/http/handler_admin.go:124-206 | limit 10 by default, at most 100, refused below 1 or if not a number; moves exactly the oldest min(limit, n); if the first failing call is at position k, the first k are moved and the answer is a server error, and on a failed publish message k alone is lost unless that took effect |
| `Replays.ReplayEndExact` | internal/adapter/http/handler_admin.go:158-193 | the same for the numbers that the run of replay steps is stated with |
| `Replays.ReplayedQueues` | internal/adapter/http/handler_admin.go:158-193 | queue by queue: the replayed queue loses its oldest, every other keeps what it had followed by what was addressed to it, in order |
| `Replays.AllLand` | internal/adapter/http/handler_admin.go:169-183 | in reachable states every republished message lands in its row's lane, attempt 0, same body |
| `Replays.LoopIsRun` | internal/adapter/http/handler_admin.go:124-206 | the loop's effect on the queues is a run of the protocol's replay steps, of which at most the last fails |
| `Service.NotificationService.PublishOne` | internal/app/notification_service.go:211-221 | publishes the row's wire form once, on its lane's key |
| `Service.NotificationService.Create` | internal/app/notification_service.go:76-110 | refused without a trace, or inserted and handed to the broker exactly once; which error means which; the new row holds the input field by field, with an empty priority as "normal", and no other row changes |
| `Service.NotificationService.CreateWithIdempotency` | internal/app/notification_service.go:115-130 | a stored key is answered with its row and nothing happens; otherwise the row is created under it, and each error fixes what was stored and whether a publish was made; the row holds the input and the key |
| `Service.NotificationService.CreateBatch` | internal/app/notification_service.go:136-185 | the first invalid item stops everything without a trace; a failed insert publishes nothing; after a commit every row is published in order and errors undo nothing; one new row per item, holding the item field by field, and no other row changes |
| `Service.CreateIsRun` | internal/app/notification_service.go:76-110 | a created row is an insert step and a publish step of the protocol |
| `Service.BatchIsFresh` | internal/app/notification_service.go:136-170 | a validated batch goes in if and only if the protocol's batch step admits it |
| `Service.CreateBatchIsRun` | internal/app/notification_service.go:136-185 | a committed batch is the batch step followed by one publish step per row |
| `Service.PublishAllInOrder` | internal/app/notification_service.go:172-183 | the rows of a batch are handed over in order, whatever errors are reported; without lost publishes the queues gain one first copy of each, in its lane, in that order |
| `Service.SummaryAddsUp` | internal/app/notification_service.go:191-193 | a batch summary's four counts add up to its total in every reachable state |
| `Batches.BatchStarts` | internal/app/notification_service.go:136-170 | a stored batch starts with all its rows pending |
| `Batches.StepMoves` | internal/adapter/postgres/notification_repository.go:70-179 | in every run a step leaves a batch's summary alone, or changes the status of one of its rows, and that row moves from its old count to its new one |
| `Batches.DeliveryCounts` | internal/adapter/postgres/notification_repository.go:147-173 | a pending row that becomes delivered raises `delivered` and lowers `pending` by one, and the rest of the summary stays |
| `Idempotency.StepKeeps` | internal/app/notification_service.go:115-130 | every step of interleaved creates keeps one row per key, distinct hand-overs and truthful answers |
| `Idempotency.OneRowOneCall` | internal/app/notification_service.go:76-130 | in every interleaving: one row per key, at most one publish call for it, every served caller was given that row, `created` means handed over |
| `Idempotency.LoserRefused` | migrations/0003_add_batch_id_and_idempotency.sql:7-9 | the racer that inserts second is refused and neither stores nor publishes |
| `Idempotency.AnswerFinal` | internal/app/notification_service.go:115-130 | an answered request does nothing afterwards |
| `Idempotency.ReplayedUnpublished` | internal/app/notification_service.go:112-119 | a run in which a caller is told `replayed` for a row whose creator died before its publish |
| `Idempotency.ReplayedAfterLostCommit` | internal/app/notification_service.go:101-130 | ... or whose insert was committed but reported failed |
| `Idempotency.HandedExactly` | internal/app/notification_service.go:101-110 | in every interleaving a row has been handed over if and only if a request with its id was told `created` or that its publish failed |
| `Idempotency.ServedMeansHanded` | internal/app/notification_service.go:115-130 | what that means for a served caller's row, and that no other row of its key is ever handed over |
| `Idempotency.AloneIsCreate` | internal/app/notification_service.go:115-130 | one request left alone does what CreateWithIdempotency promises |
| `Listing.BuildListWhere` | internal/adapter/postgres/notification_repository.go:238-263 | clauses numbered from 1, one argument each, that accept exactly the rows meeting every non-zero filter field |
| `Listing.FullWhere` | internal/adapter/postgres/notification_repository.go:242-262 | the text with every field set, and what it asks of a row |
| `Listing.SelectReadsOnce` | internal/adapter/postgres/notification_repository.go:187-192 | the query text determines its clauses, placeholders, LIMIT and OFFSET positions |
| `Pages.List` | internal/adapter/postgres/notification_repository.go:184-236 | the total and the slice of the newest-first listing at the 64-bit offset; an error exactly for negative bounds or a failing database call |
| `Pages.ListedExact` | internal/adapter/postgres/notification_repository.go:188-192 | the listing is strictly descending by creation time and id and holds exactly the rows whose status, channel and creation time the filter admits |
| `Pages.ScanIrrelevant` | internal/adapter/postgres/notification_repository.go:188-192 | the listing does not depend on the order the table is read in |
| `Pages.PagesCover` | internal/adapter/postgres/notification_repository.go:184-236 | pages 1 to total / limit rounded up are the whole listing, each row once, and none overflows |
| `Pages.PageExact` | internal/adapter/postgres/notification_repository.go:205 | a page is right if and only if its offset fits in 64 bits or wraps past the end |
| `Pages.FarPageWraps` | internal/adapter/postgres/notification_repository.go:205 | page 2^62 + 1 of 4 is answered with page 1 |
| `Consumers.NewConsumer` | internal/adapter/rabbitmq/consumer.go:48-85 | every option's value: Concurrency at least 1, PrefetchCount the larger of its own or default value and Concurrency; sensible options unchanged; fails if and only if Qos does |
| `Consumers.ProcessSync` | internal/adapter/rabbitmq/consumer.go:164-175 | exactly one settle call, Ack if and only if the handler returned nil |
| `Consumers.StepKeeps` | internal/adapter/rabbitmq/consumer.go:94-175 | every step of loop, goroutines, drain and supervisor keeps slot, wait-group and settlement books |
| `Consumers.WithinConcurrency` | internal/adapter/rabbitmq/consumer.go:155-161 | outside the drain, also across restarts: handlers under way = occupied slots <= Concurrency <= PrefetchCount |
| `Consumers.SettledOnce` | internal/adapter/rabbitmq/consumer.go:164-175 | in every run a delivery is settled at most once, after its handler, with Ack if and only if it returned nil |
| `Consumers.ReturnDecides` | internal/adapter/rabbitmq/consumer.go:164-175 | no step between a handler's return and the end of its goroutine changes what it returned |
| `Consumers.DrainSettles` | internal/adapter/rabbitmq/consumer.go:122-151 | when the drain returns every delivery it received has been through its settle call |
| `Consumers.SemaphoreExact` | internal/adapter/rabbitmq/consumer.go:129-161 | over all runs of one subscription, drain included: never more than Concurrency handlers at work, if and only if PrefetchCount equals Concurrency |
| `Consumers.WindowBounds` | internal/adapter/rabbitmq/consumer.go:55-76 | in every run of one subscription the prefetch window bounds the handlers at work |
| `Consumers.RestartBound` | internal/adapter/rabbitmq/consumer.go:94-161 | in every run, over any number of restarts, at most Concurrency + PrefetchCount handlers are at work |
| `Consumers.RestartReaches` | internal/adapter/rabbitmq/consumer.go:94-161 | ... and for all options a run with a restart has exactly that many at work |
| `Consumers.DrainExceeds` | internal/adapter/rabbitmq/consumer.go:129-147 | for all options with PrefetchCount above Concurrency, a run in which the drain makes Concurrency + 1 handlers work at once |
| `Consumers.DrainLeaves` | internal/adapter/rabbitmq/consumer.go:129-147 | when the drain has returned, the handlers under way are those holding slots, and every delivery received is done with if and only if no slot is held |
| `Consumers.DrainLeavesFull` | internal/adapter/rabbitmq/consumer.go:129-147 | for all options, a run whose drain returns with every slot held by a running handler |
| `Backoff.GuardsExact` | internal/app/worker.go:124-134 | for every positive base the delay is the capped product if and only if it fits in 64 bits or wraps to something the guards catch |
| `Backoff.OverflowSlipsThrough` | internal/app/worker.go:129-132 | a base of 2^34 + 1 ns wraps past the guards |
| `Backoff.DelayExact` | internal/app/worker.go:123-134 | for bases below 2^33 ns the delay is min(base 2^attempt, max) if and only if attempt <= 30 or max <= base 2^30 |
| `Backoff.SupervisorLoop` | internal/app/worker.go:77-121 | goes on exactly while every run breaks with the context alive, and has slept the total backoff of its restarts |
| `Backoff.TotalBackoffExact` | internal/app/worker.go:85-104 | 0.5 (2^k - 1) s over the first k <= 6 restarts, 31.5 + 30 (k - 6) s after |

## Left out

- HTTP parsing, middleware, DTOs, health, metrics, logging, configuration and process wiring: no state of depth.
- The circuit breaker, the rate limiter and the webhook provider: only the outcome classes of one provider call matter to the
  protocol (accepted, delivery failed, circuit open, other error), and they are arbitrary here.
- The branch of the delivery use case without a retry publisher (internal/app/deliver.go:215-226): production always wires one.
- MarkDelivered and MarkFailed (internal/app/notification_service.go:203-209): nothing calls them; with them `delivered` would
  not be absorbing.
- Recipient and content validation is one flag per input; channel and priority are checked as the code does.
- Error texts, the reason and response columns of the trail, updated_at, the notification_id and timestamp message properties.
- x-attempt headers of type float64, and headers the broker adds to dead-lettered messages: no code here writes or reads them.
- Replay: errors of the final ack are only covered as a connection lost between publish and ack (step ReplayCrash); a failing
  inspect reports 0 remaining, as in the code.
- Poison bodies and messages not created by the API are kept out of the run invariants; `Deliver.PoisonExactly` treats one handling.
- The receive loop and handler goroutines of the consumer, and concurrent creates, are step relations on values: their interleaving
  is the point, and no heap object carries it.
- Several workers on one queue are covered: any number of copies may be out at once. Which channel each belongs to is not
  recorded, so a lost channel is one step per message.
- Service.CreateIsRun: single rows with a batch id are excluded, although Create stores one it is given
  (internal/app/notification_service.go:91); no caller sets it (internal/adapter/http/handler_notification.go), and such a row
  would make the stored batch total wrong.
- CrashSafety.PublishBeforeAck: excludes replays, because a replay resets the attempt count to 0 and such a copy can be lost as
  in `Gaps.CrashAfterMarkLoses`.
- Pages.PagesCover: for listings of at most 2^63 rows, the range of the offset itself.
- Backoff.SupervisorLoop: counts restarts in unbounded integers.

# Dinner Rush, verified model

A Dafny model of the Dinner Rush order pipeline and of the smaller stateful parts around it. An order
is accepted by ingestion, announced through a transactional outbox, seeded into the orchestrator, and
driven from `placed` to `delivered` (or `cancelled`, `failed`) by commands on RabbitMQ, with calls to
a payment, a restaurant and a courier service on the way. The design claims that no order is lost,
none takes effect twice, and that the system recovers by itself. The project says exactly how far
that is true of the code.

`dafny verify dfyconfig.toml` checks everything.

## How the model is built

**The pipeline** (`Pipeline.dfy`) is one state machine over the whole system: the tables of both
databases and of the three services, every durable message or outbox row, every handler in flight
with its program counter and the row it read, every HTTP request in flight, and Redis. A step is one
atomic action of one participant: a transaction, a confirmed publish, an ack, a request or its answer,
a timeout, the end of a retry delay, a fault anywhere in a handler, a crash that puts an unacked
message back, a replay, Redis forgetting. A run is any sequence of enabled steps, so every
interleaving of any number of handlers, relays and requests is a run.

- `PipelineInvariant` proves the invariant that every step keeps.
- `PipelineNoLoss` and `PipelineDrain` add that no needed envelope disappears and that the pipeline
  runs dry.
- `PipelineTheorems` states what follows for every run from the empty system.
- `PipelineLimits` gives the runs in which "no order lost" and "recovers on its own" fail, and says
  exactly when an accepted order can still enter the pipeline.
- `PipelineRecovery` shows how an order is finished from any token that carries its current command.
- `PipelineFate` says, for every state of every run, exactly which orders can still be finished, and
  so exactly which orders the last-resort nack loses.
- `PipelineCalm` shows that recovery is hands-off once faults, refusals, timeouts, breaker rejects and
  crashes stop, whatever the drain loop replays: a parked `order.placed` goes round the advance path and
  parks again for ever, but the other steps of a run are bounded all the same, and where only such
  detours are left every seeded order is finished.
- `PipelineMessages` says which step may put which message where, what it takes to park one, and what the
  transitions rows tell.
- `PipelineHandler` and `PipelineServices` show that a delivery, a call and a request of the pipeline end
  as the classes below end them, with the same rows and messages.

**The objects** that the code updates in place are classes: `OrchestratorDb` (the orchestrator's
transactions, statement by statement, with rollback), `Broker`, `Relay`, `Ingestion`,
`PaymentService`, `FulfillService`, `FlakyCore`, `CircuitBreaker`, `ResilientClient`,
`ThroughputWindow`. Each method is proved against a function on values, and properties of whole traces
are proved about those functions. `OrchestratorDb.Represents`, `Downstreams.Represents` and
`Ingestion.Essence` tie the tables of the classes to the tables of the pipeline, so that a transaction
of the class is the transaction step of the pipeline; `OutboxRelay.BatchesRefineRows` does the same
for the relay, whose batches the pipeline takes row by row.

**The storefront** is `Storefront` (grouping, keys, the sorted token), `Checkout` (retried checkouts
against ingestion), `CartMoney` (a cart's total followed down to the charges) and `CartStatus` (the
single status that the tracker shows).

## What the code does not do

Where the repository's documentation or comments and the code disagree, the model follows the code.

- The repository's `README.md:99-101` and the comment at `services/orchestrator/app/main.py:473-480` say that recovery
  is hands-off. An `order.placed` that fails twice is parked (`services/orchestrator/app/main.py:226-229`),
  and replay publishes it to the advance queue (`libs/drcommon/drcommon/broker.py:213-214`), where
  decoding its missing `from` raises. `ParkedPlacedIsStranded` is such a run; `CanStillBeSeeded` says
  exactly when an accepted order can still enter the pipeline.
- The repository's `README.md:208` says a crash never drops. After an exception in the handler, `_fault`
  publishes once more, to the retry queue or, at the cap, to the DLQ. If that one publish fails, the last
  resort is a nack without requeue on a queue without a dead-letter exchange
  (`services/orchestrator/app/main.py:249-263`, `libs/drcommon/drcommon/broker.py:94`).
  `PipelineFate.LostForGood` is a run that loses an order for good, and `PipelineFate.DiscardLosesExactly`
  says exactly when that nack does: when the command is the one the order waits for and nothing else
  carries it, not even a row that is published but not stamped yet or an unacked copy.
- The repository's `README.md:225-226` and the comment at `libs/drcommon/drcommon/http_client.py:200` say that rate limiting
  does not trip the breaker. Lines 226-229 record a failure for a call whose last answer was a 429 too.
  `FailureRecordedIff` says exactly when a call counts as a failure, and `HopelessCallsTrip` that for
  every threshold as many calls that only ever see a 429 open the breaker.
- The comment at `customer-web/src/lib/dr.ts:105` calls the cart token deterministic. It is, except when
  two restaurant ids of the cart compare as equal under `localeCompare`: `SameTokenIff`.
- `customer-web/src/lib/dr.ts:93` joins the cart key and the restaurant id with a colon. `KeyClash` says
  exactly when two carts then share a key; cart keys without a colon never do (`KeyInjective`).
- The comment at `customer-web/src/lib/dr.ts:142-144` means the pending placeholder for the brief window before
  an order is seeded. Lines 160-169 show it for any failed read too, so the live feed can step back:
  `LiveFeedStepsBackIff` says exactly when, and `ConfirmedThenPlaced` is a run in which it does.
- A cancellation (`services/orchestrator/app/main.py:286-290`) leaves the payment as it is, and a cancelled order may
  have been charged: from confirmed or preparing it always was (`StageImpliesEffect`), and from placed it may have
  been, when the command comes back after the charge (`CancelledAfterCharge`). `CancelledUnpaidIff` says exactly
  under which settings no cancelled order is charged.
- `libs/drcommon/drcommon/states.py:41` says that illegal transitions are rejected server-side. Nothing
  calls `can_transition`; `ForwardSimulation` shows that no step makes an illegal one.

## Model

| member | source | states |
|---|---|---|
| Lifecycle.NextHappyFollowsPath | libs/drcommon/drcommon/states.py:83-91 | the next happy state is the successor on the happy path, and only terminal states have none |
| Lifecycle.AllowedMeans | libs/drcommon/drcommon/states.py:38-50 | a transition is allowed if and only if it is one step on the happy path, a cancellation in the three stages in which one may be rolled, or a failure before the end |
| Lifecycle.NameParses | libs/drcommon/drcommon/states.py:17-25 | a state's wire name, and no other text, is read back as that state |
| Lifecycle.WalkNeverRevisits | libs/drcommon/drcommon/states.py:38-50 | a walk along allowed transitions never comes back to a state and never leaves a terminal one |
| Lifecycle.OpIdInjective | libs/drcommon/drcommon/models.py:40-50 | two lifecycle steps share an operation id only if order, from and to are the same, whatever characters the order ids contain |
| PipelineInvariant.StepInv | services/orchestrator/app/main.py:194-469 | every step of the whole system, in any interleaving, keeps the invariant of tables, messages, handlers and requests |
| PipelineInvariant.CurrentNotLeft | services/orchestrator/app/main.py:378-405 | a step out of an order's current state is not in the operations table, so no recorded claim ever blocks the step an order is waiting for |
| PipelineInvariant.TransitionKeeps | services/orchestrator/app/main.py:375-459 | the claim, compare-and-set and log row of a justified step keep all tables consistent and only add rows |
| PipelineInvariant.EffectKeeps | libs/drcommon/drcommon/payment.py:139-164 | claiming a payment, restaurant or courier effect keeps the tables consistent, adds at most the request's own row, and leaves a recorded answer |
| PipelineNoLoss.StepLive | services/orchestrator/app/main.py:194-469 | every step but the last-resort nack keeps a live envelope for each unfinished order: order.placed until it is seeded, order.advance from its current state after |
| PipelineNoLoss.DiscardUnserves | services/orchestrator/app/main.py:259-263 | the last-resort nack breaks the live-envelope bookkeeping if and only if it discards the command its order waits for and no live token has another; what that means for the order is DiscardLosesExactly |
| PipelineTheorems.NoOrderLost | services/orchestrator/app/main.py:194-335 | after every run without the last-resort nack, each accepted unfinished order has an envelope for exactly what it needs in an outbox, a queue, the DLQ or unacked |
| PipelineDrain.StepDrains | services/orchestrator/app/main.py:402-404 | every step that is not a POST, crash, relay abort, replay, Redis loss or last-resort nack strictly lowers a weight over all rows, messages, handlers and requests |
| PipelineDrain.QuietMeansParked | services/orchestrator/app/main.py:461-469 | when no undisturbed step is left, everything still there is parked in the DLQ, commands after their last attempt, and every request is answered |
| PipelineTheorems.UndisturbedRunsEnd | services/orchestrator/app/main.py:224-232 | a run without disturbances is at most as long as the weight it starts with |
| PipelineTheorems.CanDrain | services/orchestrator/app/main.py:265-335 | from every reachable state the undisturbed pipeline can run until it is quiet |
| PipelineTheorems.ParkedOnlyAtTheCap | services/orchestrator/app/main.py:461-469 | after every run a parked command has used up BROKER_MAX_ATTEMPTS, and what waits in the retry queue is a second attempt or a later one within the cap |
| PipelineTheorems.QuietOutcome | services/orchestrator/app/main.py:461-469 | once quiet, each accepted order is delivered, cancelled or failed, or the envelope it waits for is parked, a command after its last attempt |
| PipelineTheorems.AtMostOneEffect | libs/drcommon/drcommon/downstream.py:239-257 | over all runs an order has at most one charge, one restaurant dispatch and one courier dispatch |
| PipelineTheorems.StageImpliesEffect | services/orchestrator/app/main.py:312-335 | having reached confirmed, preparing or out_for_delivery means the matching row exists; failed means a declined charge |
| PipelineTheorems.EffectsInCausalOrder | services/orchestrator/app/main.py:300-335 | a courier dispatch implies a restaurant dispatch, which implies a succeeded charge |
| PipelineTheorems.ForwardSimulation | libs/drcommon/drcommon/states.py:41-50 | every concrete step leaves an order alone, creates it in placed, or takes one allowed transition recorded by one transitions row |
| PipelineTheorems.LogIsFaithful | services/orchestrator/app/main.py:392-396 | an order's transitions rows are a walk from placed to its state without repetition and match its operations rows one to one |
| PipelineTheorems.OneWinnerPerState | services/orchestrator/app/main.py:378-391 | of all advances, cancellations and failures attempted on an order from one state, at any two moments of a run, at most one takes effect |
| PipelineTheorems.LoserLeavesNothing | services/orchestrator/app/main.py:410-421 | a transaction moves its order out of the claimed state, or leaves no claim, log row, outbox row or state change and its message is acked if the step was recorded already and retried if the order was found in another state |
| PipelineTheorems.PaymentOutcomeAgrees | libs/drcommon/drcommon/payment.py:114-164 | all 200 and 402 answers for an order's payment are the recorded row, so they agree, and carry the ingested total |
| PipelineTheorems.MoneyConserved | services/orchestrator/app/main.py:345-350 | every charge in every reachable state is for its order's ingested total |
| PipelineTheorems.AdvanceEnvelopesWellFormed | services/orchestrator/app/main.py:267-284 | every order.advance envelope names an existing order and a state it has visited, at or behind the current one, with its attempt in range; a handler reading now never finds the order missing |
| PipelineMessages.MessagesLawful | services/orchestrator/app/main.py:194-469 | no step changes the body of a message; a new message is a first attempt, an exact copy, the bounce of BrokerQueues or its replay, of the step's own order, and no other step sends anything |
| PipelineMessages.FailedRetrySpendsAnAttempt | libs/drcommon/drcommon/broker.py:175-178 | an attempt is spent even if the publish of the retry fails, and the last one parks the command at the cap |
| PipelineMessages.ParkingTakesTwoSetbacks | services/orchestrator/app/main.py:224-232 | an order.placed leaves the way to on_placed, for the DLQ and beyond, only after two failures or lost connections on that order's event |
| PipelineMessages.LogTellsWhy | services/orchestrator/app/main.py:392-458 | each transitions row of every run says why its order moved: cancelled by the customer in an early stage, refused by payment out of placed, or advanced on the happy path, at an attempt within the cap |
| PipelineMessages.RequestsCapped | libs/drcommon/drcommon/http_client.py:178-179 | after every run no handler has asked its downstream more than HTTP_MAX_RETRIES + 1 times for the command it holds |
| PipelineMessages.GivesUpOnlyWhenSpent | libs/drcommon/drcommon/http_client.py:167-229 | after any run a handler leaves its call for the retry path only because the breaker rejects it before the first request, something raises, or it has asked HTTP_MAX_RETRIES + 1 times in vain |
| PipelineHandler.DeliveryIsAdvance | services/orchestrator/app/main.py:236-335 | whatever the roll, Redis and the downstream say, one uninterrupted delivery of the pipeline ends as OrchestratorDb.Advance ends: same tables, same disposition, and exactly the bounced copy or the next command left |
| PipelineHandler.RequestsArePostJson | libs/drcommon/drcommon/http_client.py:176-229 | a handler's requests are one call of PostJson: cleared if and only if it succeeds, rejected if and only if it raises PermanentError, which is a 402, and otherwise out of attempts |
| PipelineServices.RepliesOnTheWire | libs/drcommon/drcommon/payment.py:48-66 | what the pipeline takes from a payment request is what the client makes of the service's status code |
| PipelineServices.PayBeforeClaim | libs/drcommon/drcommon/payment.py:98-136 | a reply of the payment service that is decided before the claim is a run of the pipeline's request that gives its answer and touches nothing else |
| PipelineServices.PayClaim | libs/drcommon/drcommon/payment.py:139-164 | a reply that reaches the claim is the pipeline's claiming step, with the same row and answer, whatever other requests recorded in between |
| PipelineServices.FulfillOnTheWire | libs/drcommon/drcommon/downstream.py:195-258 | the same for restaurant and courier status codes |
| PipelineServices.FulfillBeforeClaim | libs/drcommon/drcommon/downstream.py:195-235 | a reply of the restaurant or courier decided before the claim is such a run |
| PipelineServices.FulfillClaim | libs/drcommon/drcommon/downstream.py:237-258 | a reply that reaches the claim is the pipeline's claiming step |
| PipelineLimits.StrandedForever | libs/drcommon/drcommon/broker.py:206-216 | an accepted order with no copy of order.placed on the way to on_placed never enters the pipeline |
| PipelineLimits.CanStillBeSeeded | services/orchestrator/app/main.py:194-232 | an accepted unseeded order can still be seeded if and only if a copy of its order.placed is in the ingestion outbox or on the way to on_placed |
| PipelineLimits.ParkedPlacedIsStranded | services/orchestrator/app/main.py:224-232 | a concrete run without any discard after which an accepted order is stranded |
| PipelineLimits.DiscardLosesAnOrder | services/orchestrator/app/main.py:249-263 | a concrete run in which the last-resort nack leaves an accepted order without any message, row or handler |
| PipelineFate.CanStillFinish | services/orchestrator/app/main.py:194-469 | in every state of every run, discards included, an accepted order can still be finished if and only if it is, or orders can end at all (an HTTP attempt per call, or cancellations) and some token carries what it waits for |
| PipelineFate.StuckForever | services/orchestrator/app/main.py:265-335 | an order whose current command no message, row or handler carries keeps its state for ever |
| PipelineFate.DiscardLosesExactly | services/orchestrator/app/main.py:249-263 | the last-resort nack turns an order that could be finished into one that cannot if and only if it discards the command the order waits for and no other token, live or not, carries it |
| PipelineFate.CancelledAfterCharge | services/orchestrator/app/main.py:286-290 | a concrete run in which the connection is lost after the charge and the redelivered command is cancelled |
| PipelineFate.CancelledUnpaidIff | services/orchestrator/app/main.py:286-290 | over all runs no cancelled order has a succeeded charge if and only if cancellations are off or calls have no HTTP attempt |
| PipelineFate.LostForGood | services/orchestrator/app/main.py:249-263 | a concrete run with such a nack after which no continuation finishes the accepted order |
| PipelineRecovery.AdvanceOnce | services/orchestrator/app/main.py:265-335 | from any reachable state an unfinished order can be moved one lifecycle step on from any token that carries its command, and its next command is then in the outbox |
| PipelineRecovery.EveryOrderCanFinish | services/orchestrator/app/main.py:265-335 | from any reachable state, discards included, an order whose current command some token carries can be finished, given one HTTP attempt per call |
| PipelineRecovery.RecoversAfterAnyRun | libs/drcommon/drcommon/broker.py:192-219 | after any run, a seeded order can be brought to a terminal state without another nack, given one HTTP attempt per call, if the run had no discard, or the order is terminal already, or some token carries its command |
| PipelineRecovery.NothingConfirmedWithoutAttempts | libs/drcommon/drcommon/http_client.py:178-179 | with no HTTP attempt per call, no order ever leaves placed except by cancellation |
| PipelineCalm.StepCalms | services/orchestrator/app/main.py:461-503 | without new posts, faults, refusals, timeouts, breaker rejects and crashes, every step lowers a weight, retries and replays included; only replaying a parked order.placed raises it, by a fixed cost, and a weight that ignores such messages never rises and falls at every step that is not on one |
| PipelineCalm.CalmRunsEnd | services/orchestrator/app/main.py:461-503 | such a run is no longer than the weight it starts with and a fixed cost per replay of an order.placed, and its steps that are no detours of such messages are bounded however many of those there are |
| PipelineCalm.CanSettle | services/orchestrator/app/main.py:492-503 | from every reachable state there is such a run, taking the DLQ from its head, that leaves only such detours |
| PipelineCalm.HandsOffRecovery | services/orchestrator/app/main.py:471-503 | after any past without a discard such runs are bounded in that way, whatever they replay, and where only detours are left every seeded order is delivered, cancelled or failed |
| OrchestratorDb.OrchestratorDb.ClaimOperation | libs/drcommon/drcommon/idempotency.py:31-50 | the first claim of an op_id wins and records it; a later one changes nothing |
| OrchestratorDb.OrchestratorDb.CompareAndSet | services/orchestrator/app/main.py:385-389 | one row is updated exactly when the order is in the expected state |
| OrchestratorDb.OrchestratorDb.CommitTransition | services/orchestrator/app/main.py:375-405 | the transaction is the atomic one of the pipeline; lost or raced it changes nothing; applied it enqueues the event and, unless terminal, the next command |
| OrchestratorDb.OrchestratorDb.Close | services/orchestrator/app/main.py:407-459 | cancelling and failing are the same transaction into a terminal state, with no next command |
| OrchestratorDb.OrchestratorDb.SeedOrder | services/orchestrator/app/main.py:202-223 | the order row and its first command are inserted together, once |
| OrchestratorDb.OrchestratorDb.Advance | services/orchestrator/app/main.py:265-335 | a command goes to the retry path exactly when its order is missing or a needed call failed transiently, and moves its order exactly when it is current, not known to be done, not bounced and not recorded; the order is then cancelled if and only if a cancellation was rolled in an early stage, failed if and only if otherwise a needed call was refused for good, and else one step further on the happy path, with one row, one event and the next command |
| BrokerQueues.CappedRetries | services/orchestrator/app/main.py:461-469 | a command that always fails is handled max(1, BROKER_MAX_ATTEMPTS) times if fresh, and parked with only its counter changed |
| BrokerQueues.ReplayKeepsEveryCommand | libs/drcommon/drcommon/broker.py:203-216 | every parked envelope comes back as a first attempt, behind exactly those parked before it |
| BrokerQueues.ReplaySplits | libs/drcommon/drcommon/broker.py:207-216 | what was parked is what is replayed plus the poison bodies dropped, counters aside |
| BrokerQueues.ReplayedConcat | libs/drcommon/drcommon/broker.py:203-216 | replaying in two goes gives the same commands in the same order as one |
| BrokerQueues.DrainEmptiesTheDlq | services/orchestrator/app/main.py:492-502 | while nothing else is parked, enough healthy drain ticks of 500 empty the DLQ and put every decodable command on the work queue once and in order |
| BrokerQueues.DrainTakesBatches | services/orchestrator/app/main.py:492-502 | any number of healthy ticks moves exactly the oldest 500 messages a tick, or all there are |
| BrokerQueues.Broker.DrainLoop | services/orchestrator/app/main.py:492-502 | any number of ticks of the drain loop, undisturbed, replays the oldest 500 messages at each healthy one and nothing at the others |
| BrokerQueues.Broker.ScheduleRetry | libs/drcommon/drcommon/broker.py:175-178 | the copy in the retry queue has its attempt counted up and is otherwise the same command |
| BrokerQueues.Broker.RetryOrDlq | services/orchestrator/app/main.py:461-469 | the copy goes to the DLQ at the cap and to the retry queue below it, then the original is acked; the commands held by the broker stay the same |
| BrokerQueues.Broker.ParkPoison | libs/drcommon/drcommon/broker.py:183-190 | an undecodable body is parked as it is and acked |
| BrokerQueues.Broker.ReplayDlq | libs/drcommon/drcommon/broker.py:192-219 | the oldest messages up to the limit move to the work queue in order, restarted; poison is dropped; nothing else changes and moved plus dropped is what was taken |
| OutboxRelay.PublishesAccountedFor | libs/drcommon/drcommon/outbox.py:100-131 | with any number of relays a row is in at most one open batch, a stamped row was published, and its publishes are the aborted batches that published it plus one if it is stamped or published by an open batch |
| OutboxRelay.BatchesRefineRows | libs/drcommon/drcommon/outbox.py:100-131 | seen from one row, every relay step publishes it once, stamps it after a publish, or gives it back |
| OutboxRelay.Relay.DrainOnce | libs/drcommon/drcommon/outbox.py:100-131 | a batch is published in id order and stamped exactly if every publish succeeded; a failure stamps nothing |
| CircuitBreaker.CircuitBreaker.Allow | libs/drcommon/drcommon/http_client.py:69-84 | admits always when closed, after open_seconds when open, and one probe when half-open |
| CircuitBreaker.CircuitBreaker.RecordFailure | libs/drcommon/drcommon/http_client.py:93-106 | a failed probe reopens; otherwise the breaker opens when the count reaches the threshold |
| CircuitBreaker.AlwaysCoherent | libs/drcommon/drcommon/http_client.py:59-106 | over all traces closed means fewer failures than the threshold and half-open means a probe is out, if and only if the threshold is at least 1 |
| CircuitBreaker.StateIsHistory | libs/drcommon/drcommon/http_client.py:69-110 | over all traces, late results included, the breaker is closed if and only if fewer failures than the threshold came after the last success, and otherwise half-open if and only if some call asked open_seconds after the last failure |
| CircuitBreaker.AdmissionIsHistory | libs/drcommon/drcommon/http_client.py:69-84 | a call is let through if and only if too few failed since the last success, or it is the first to ask open_seconds after the last failure |
| CircuitBreaker.ProbesSpaced | libs/drcommon/drcommon/http_client.py:72-84 | half-open admissions are at least open_seconds apart, whatever late results arrive between them |
| CircuitBreaker.OutageThrottled | libs/drcommon/drcommon/http_client.py:69-106 | a stretch of length T that is never closed admits at most floor(T / open_seconds) + 1 calls |
| HttpClient.ResilientClient.PostJson | libs/drcommon/drcommon/http_client.py:167-229 | a call stops at the first answer that is not transient or after max_retries + 1 POSTs, with every counter and the single resolution of the breaker accounted for on every exit |
| HttpClient.ClassifyMeans | libs/drcommon/drcommon/http_client.py:189-216 | the classification by status code: below 300, 429, from 500 on with transport errors, and the rest |
| HttpClient.StatusCodesDecide | libs/drcommon/drcommon/http_client.py:189-229 | by status codes alone: every answer but the last is a 429, a code from 500 on or a transport error; a last one below 300 is a success, one of these comes only after max_retries + 1 POSTs, any other is raised with its code; both settled ends leave the breaker closed, and every 429 is counted |
| HttpClient.FailureRecordedIff | libs/drcommon/drcommon/http_client.py:189-229 | an admitted call counts against the breaker if and only if all its max_retries + 1 answers are transient, 429 included, and as a success otherwise |
| HttpClient.TransientCallsTrip | libs/drcommon/drcommon/http_client.py:93-106 | calls whose answers are all transient open a fresh breaker exactly when their number reaches the threshold |
| HttpClient.HopelessCallsTrip | libs/drcommon/drcommon/http_client.py:189-229 | for every threshold of at least one and every answer that is a 429, a code from 500 on or a transport error, that many calls answered with nothing else make all their POSTs, fail, and leave a fresh breaker open |
| HttpClient.RetryAccounting | libs/drcommon/drcommon/http_client.py:176-229 | for any interleaving of calls, calls = successes + failures + permanent errors and POSTs = calls + retries, up to the calls in flight, and no call makes more than max_retries + 1 POSTs |
| HttpClient.PostsAddUpIff | libs/drcommon/drcommon/http_client.py:178-179 | POSTs = calls + retries holds over all traces if and only if max_retries is not negative |
| HttpClient.NeverStuckHalfOpen | libs/drcommon/drcommon/http_client.py:86-106 | while the breaker is half-open the call it let through is still in flight, so a probe is always released |
| HttpClient.UninterruptedCall | libs/drcommon/drcommon/http_client.py:167-229 | a call that nothing interrupts is a run of the shared client, with the breaker, counters and POSTs of PostJson and the other calls untouched |
| RateLimiter.FlakyCore.RateLimited | libs/drcommon/drcommon/downstream.py:92-98 | counts the request in the current window and refuses it exactly when it is over the limit |
| RateLimiter.OpeningsApart | libs/drcommon/drcommon/downstream.py:94-96 | window starts are at least one second apart |
| RateLimiter.IntervalBound | libs/drcommon/drcommon/downstream.py:92-98 | any interval of n seconds lets through at most (n + 1) times the limit |
| RateLimiter.TwiceTheLimitHappens | libs/drcommon/drcommon/downstream.py:92-98 | the bound is met: twice the limit can pass within a tenth of a second |
| Downstreams.PaymentService.Claim | libs/drcommon/drcommon/payment.py:139-151 | a charge is recorded for a key at most once |
| Downstreams.PaymentService.CreatePaymentIntent | libs/drcommon/drcommon/payment.py:98-164 | each reply is given exactly in its case, whatever concurrent requests record: a recorded key is answered from its row without a rate-limit token, an error or timeout roll is a 502 or 504 and charges nothing, a definitive answer is the row that is there after the claim, and no row ever changes |
| Downstreams.ClaimIsEffect | libs/drcommon/drcommon/payment.py:142-151 | a claim under the op_id of a payment step is the charge step of the pipeline |
| Downstreams.FulfillService.Fulfill | libs/drcommon/drcommon/downstream.py:195-258 | each reply is given exactly in its case: an error or timeout roll is a 500 or 504 and records nothing, a 200 means the effect is recorded once, a known duplicate gets the stored detail without a token, a racing loser its own detail |
| Downstreams.DispatchIsEffect | libs/drcommon/drcommon/downstream.py:239-249 | a claim under the op_id of a restaurant or courier step is the dispatch step of the pipeline |
| Ingestion.Ingestion.PlaceOrder | services/ingestion/app/main.py:97-138 | order row and order.placed row are written together or not at all, with everything the client sent, and the answer names the order recorded for the key |
| Ingestion.PostOutcome | services/ingestion/app/main.py:97-138 | which request is malformed, refused, a duplicate or accepted, field by field: no items, a quantity below one, a negative price, a total over int4, a known key, a taken id |
| Ingestion.PostKeepsValid | services/ingestion/app/main.py:105-132 | every order keeps exactly one outbox row with its content, and every key exactly one order |
| Ingestion.OneOrderPerKey | services/ingestion/app/main.py:116-125 | over any history of posts, everyone answered for a key is told the one order id it ends up with |
| Ingestion.RecordedWasAccepted | services/ingestion/app/main.py:105-138 | a recorded key was accepted exactly once, and its row is that post's content |
| Ingestion.PostIsPipelinePost | services/ingestion/app/main.py:97-138 | a well-formed request is the Post step of the pipeline, with the same outcome and rows |
| Storefront.GroupByRestaurant | customer-web/src/lib/dr.ts:70-76 | a restaurant is in the groups if and only if the cart has an item of it; its lines are these items in cart order, each once with its own quantity and price under its name or dish id; names are in order of first appearance |
| Storefront.LinesAreItems | customer-web/src/lib/dr.ts:72-75 | the lines ordered from a restaurant are the cart's items of it, each once, in cart order, quantity and price unchanged |
| Storefront.NamesInFirstOrder | customer-web/src/lib/dr.ts:71-76 | the restaurants are in the order in which the cart first names them |
| Storefront.FanOutConserves | customer-web/src/lib/dr.ts:79-103 | the orders' totals add up to the cart's total for every completion order of the POSTs |
| Storefront.KeyClash | customer-web/src/lib/dr.ts:93 | two per-restaurant keys are equal if and only if they name the same cart and restaurant or one cart key runs into the other's restaurant id across a colon |
| Storefront.KeyInjective | customer-web/src/lib/dr.ts:93 | colon-free cart keys never share a per-restaurant key |
| Storefront.SortSorts | customer-web/src/lib/dr.ts:106 | the sorted list is in order and a permutation of what was pushed |
| Storefront.SortStable | customer-web/src/lib/dr.ts:106 | entries that compare as equal keep their completion order |
| Storefront.TokenDeterministicIff | customer-web/src/lib/dr.ts:105-106 | the token is the same for every completion order if and only if no two of its restaurant ids compare as equal |
| Checkout.PlaceCart | customer-web/src/lib/dr.ts:65-115 | whenever each POST arrives, is answered or is lost, with other clients' posts in between, exactly the posts that arrive change ingestion, each asking for its restaurant's items for this customer under the cart's key; a token with the headcount, and the cart's total, come back exactly when every wait ends well, and then the token has the order of every restaurant |
| Checkout.PlaySends | customer-web/src/lib/dr.ts:85-95 | the posts of a checkout are its arrivals one by one: key, customer, restaurant and items of the request |
| Checkout.CheckoutFailsIff | customer-web/src/lib/dr.ts:96-103 | a checkout fails if and only if some wait ends unheard or its last arrived post was not answered 200 or 202 |
| Checkout.CheckoutIsTraffic | customer-web/src/lib/dr.ts:85-94 | whatever its schedule, a checkout sends only its cart's own posts, under its own keys |
| Checkout.CheckoutIdempotent | customer-web/src/lib/dr.ts:82-94 | over any number of full or partial checkouts, interleaved with others, of carts whose keys do not clash, each answered restaurant has exactly one order with its items, quantities and prices unchanged, their total, and one order.placed row, and every answer named it |
| Checkout.IdempotentIff | customer-web/src/lib/dr.ts:93 | that holds for every traffic of a set of carts if and only if no restaurant of one shares its key with an orderable restaurant of another |
| Checkout.ColonFreeCartsDoNotClash | customer-web/src/lib/dr.ts:93 | carts whose keys have no colon never clash |
| Checkout.SameTokenIff | customer-web/src/lib/dr.ts:105-109 | every successful checkout of a cart returns the same token over all retries and completion orders if and only if localeCompare tells its restaurant ids apart |
| CartMoney.IngestMirrors | services/ingestion/app/main.py:97-138 | inside any run of the pipeline the ingestion table is that of the posts' history, whatever else happens in between |
| CartMoney.MoneyEndToEnd | libs/drcommon/drcommon/models.py:77-78 | in every reachable state the tracked totals and the charges of a cart's orders agree with its lines, and add up to the cart's total once all are there, for carts whose keys do not clash |
| CartStatus.AggregateSummarises | customer-web/src/lib/dr.ts:171-182 | the status is failed if any order is, cancelled if all are, and otherwise that of the least advanced order not cancelled |
| CartStatus.ListingIndependent | customer-web/src/lib/dr.ts:176-182 | the status depends only on which states occur |
| CartStatus.StatusMonotone | customer-web/src/lib/dr.ts:171-182 | as orders move along allowed transitions the status never goes back on FLOW and never changes once delivered, failed or cancelled |
| CartStatus.LiveFeedMonotone | customer-web/src/app/api/orders/[id]/stream/route.ts:47-50 | in any run of the pipeline a later view, each order read at its own time, is no further back than an earlier one, whichever reads of that one failed, and equal if the earlier one was terminal; closing the feed there misses nothing |
| CartStatus.LiveFeedStepsBackIff | customer-web/src/lib/dr.ts:160-169 | whichever reads of either tick fail, the shown status steps back if and only if a read of the later tick fails, no failed order is seen in it and the status was past placed; a terminal status stays if and only if no read fails or a failed order is seen |
| CartStatus.ConfirmedThenPlaced | customer-web/src/lib/dr.ts:160-169 | a concrete run after which a one-order cart is shown as confirmed and, on a failed read, as placed |
| CartStatus.ComposeCartView | customer-web/src/lib/dr.ts:235-310 | the composed status summarises the orders read, those not found as placed; items, kitchen and delivery rows are those of the orders in token order, and the total is the sum of the rows' subtotals |
| CartStatus.RowsTellStatus | customer-web/src/lib/dr.ts:176-204 | the status never contradicts the rows: failed exactly if a row is, cancelled exactly if all are, delivered exactly if all deliveries not cancelled are dropped off and there is one |
| CartStatus.EveryItemShown | customer-web/src/lib/dr.ts:234-245 | every item of every order is shown once, in token order and numbered within its order |
| CartStatus.RowsTellStage | customer-web/src/lib/dr.ts:184-204 | which stage each kitchen and delivery status stands for |
| CartStatus.RowsAreBacked | customer-web/src/lib/dr.ts:184-204 | in every reachable state the kitchen and delivery rows are backed by a succeeded charge, a restaurant dispatch and a courier dispatch, and a failed row by a declined charge |
| CartStatus.FetchedIsRead | customer-web/src/lib/dr.ts:142-169 | a read that succeeds or finds no order shows the order's state, placed while it is not seeded |
| CartStatus.ComposedIsShown | customer-web/src/lib/dr.ts:223-286 | the states that composeCartView aggregates are those of the reads that succeed, and placed for the failed ones, as the live feed's lemmas take them |
| CartStatus.ViewTotal | customer-web/src/lib/dr.ts:252-254 | once every order was found the view's total is the sum over the token's orders |
| ThroughputWindow.ThroughputWindow.OnEvent | services/dashboard_api/app/main.py:109-116 | an event is appended and the window stays a tail of the full history |
| ThroughputWindow.ThroughputWindow.Rate | services/dashboard_api/app/main.py:122-125 | after pruning the deque holds exactly the events of the full history that are no older than the window, and the rounded rate is exactly their count over it |
| ThroughputWindow.RoundingIsExact | services/dashboard_api/app/main.py:125 | rounding the rate to two digits loses nothing |
| ThroughputWindow.PrunedIsRecent | services/dashboard_api/app/main.py:122-124 | dropping from the front while too old leaves what a filter over the whole history would |

## Left out

- RabbitMQ, Postgres, Redis, httpx and FastAPI: only what the code relies on is modelled (atomic transactions, unique keys, locked rows, confirmed durable publishes, redelivery of unacked messages, a Redis that may forget anything).
- The queue `q.orch.placed` at first boot (`services/orchestrator/app/main.py:171`): an event published before it is bound is unroutable, so runs start with it bound.
- Poison bodies and JSON in the pipeline: its envelopes are typed. Undecodable bodies are in `BrokerQueues`.
- `order.transition` events in the pipeline: nothing in it consumes them. `OrchestratorDb` proves that they are enqueued with the transition; the dashboard's use is `ThroughputWindow`.
- Publishing failures inside on_placed's exception path: the message stays unacked and comes back, as after a crash.
- Int4 columns: a total that does not fit is refused as a whole, as the encoding error in the transaction does it; other integers are unbounded.
- JavaScript numbers: sums are exact below 2^53, which the int4 totals of accepted orders reach only with millions of restaurants in one cart.
- PipelineTheorems.NoOrderLost: is about runs without the last-resort nack; PipelineFate covers the others exactly.
- PipelineCalm.HandsOffRecovery: needs a past without that nack, since a row whose published copy was discarded is stamped and gone, and at least one HTTP attempt per call, since without one a command is retried, parked and replayed for ever. When the next step comes (retry TTL, drain interval) is not modelled.
- OrchestratorDb.OrchestratorDb.Advance: is one uninterrupted run of _advance; rivals between its statements are in the pipeline, whose deliveries it is by DeliveryIsAdvance.
- PipelineHandler.DeliveryIsAdvance: a permanent refusal comes from the payment service only; the restaurant and courier services have none.
- HttpClient.ResilientClient.PostJson: is one uninterrupted call, tied to the shared client by UninterruptedCall; exceptions other than timeouts and transport errors, and task cancellation, are not modelled.
- OutboxRelay.Relay.DrainOnce: takes one relay's batch as uninterrupted; interleaved relays are in PublishesAccountedFor.
- CartStatus.LiveFeedMonotone: is the half in which the later view's reads succeed; LiveFeedStepsBackIff covers failed ones.
- CartStatus.ComposeCartView: leaves out names, timestamps, the failure reason and the merged timeline.
- ThroughputWindow.ThroughputWindow.Rate: rounds real numbers; floating point is not modelled.
- Cart token encoding (JSON and base64url): library code; a token is its version, headcount and list of entries.
- `localeCompare`: any total, transitive comparison under which distinct ids may tie.
- Randomness, latency, outage simulation, Retry-After delays, backoff, metrics, latency averages, logging, SSE plumbing, control routes, environment variables, the load generator, React components and menu data: input, output or easy members.

# Order, inventory and payment: a saga over at-least-once delivery

Four state machines (order, reservation, stock row, payment) live in three databases. Nothing joins
them but outbox rows, a partitioned log that duplicates, reorders and replays, and one
`processed_events` table per service. There is no coordinator, so what the services promise together
has to follow from an invariant over interleaved transactions. This project models those
transactions, the channel between them, and proves what they guarantee, exactly where they do not,
and why.

## How it is built

| files | what they hold |
|---|---|
| `Prelude`, `Events`, `OrderStatus` | sorting and option vocabulary, the events, the order state machine |
| `Inventory`, `InventoryLedger`, `InventoryInvariants`, `InventoryTheorems` | inventory's transactions as functions of its database, the ledger and conservation invariant, what it means over whole runs |
| `InventoryService`, `Sweeper` | the service object updated statement by statement, and the sweep loop, proved equal to those functions |
| `ReserveConcurrency`, `ReserveOutcomes` | `reserve` as transactions that lock one row at a time |
| `Orders`, `OrderInvariants`, `OrderTheorems`, `OrderService` | the same four layers for orders |
| `Payments`, `PaymentService` | the same for payments, with the mock provider |
| `InventoryOutcomes`, `OrderOutcomes`, `PaymentOutcomes` | the exact answer of every transaction and every field it writes, in terms of its inputs |
| `Delivery`, `ConsumerService` | one consumer group: dispatch, retry, dead letters, offsets, rewinds |
| `Outbox` | the relay from an outbox table to the broker |
| `SagaSystem` | the three services together, one transaction of one of them per step |
| `SagaAutomaton`, `SagaViews`, `SagaProjection`, `SagaSimulation`, `SagaRuns` | each order's share of the system as a small automaton that every step simulates |
| `SagaRefunds`, `SagaTheorems`, `SagaLiveness` | how much is given back; agreement, compensation, capture; quiescence is always within reach |
| `SagaDisturbances`, `SagaLateRetry`, `SagaEarlyCancel`, `SagaPartialRefund`, `SagaCounterexamples` | how agreement is lost, from every state where it can be |
| `SagaNetwork`, `SagaExactlyOnce`, `SagaRelay`, `SagaDraining` | the saga over relays, log and consumer groups, refining `SagaSystem`; each database is its requests and its handled events once each; a drained network is always within reach |
| `SagaOwners` | strangers' requests change nothing, and attempts are counted exactly |
| `SagaFairness`, `SagaFourRounds` | every fair schedule settles within four rounds, and three can be too few |
| `RateLimiter` | the gateway's sliding window, a component of its own |

Each service appears twice on purpose: as functions from database to database, which lemmas can talk
about, and as a class whose methods assign fields in loops like the code does and are proved equal to
those functions. Money is integer paise; `Numeric(12, 2)` times an integer quantity is exact.
Transactions are atomic with unique keys and row locks. Clock readings, the provider's randomness and
every failure are inputs.

## Where the code and its own text part

- The inventory consumer says one order's events arrive in order across topics
  (services/inventory/app/consumer.py:57-60). The relay skips a failed row and sends later ones, and
  topics have independent offsets, so nothing enforces it: `SagaDisturbances.OvertakingCaptureIsLost`
  shows what a reordering costs, `SagaTheorems.CalmAgreementIff` that it is the only way a calm run
  goes wrong.
- `cancel` says a PAID order gets a refund and a restock and a PENDING one needs neither
  (services/order/app/saga.py:190-196). The restock of a PAID order always comes:
  `SagaTheorems.PaidCancellationIsCompensated`. Its money comes back in full if and only if no
  administrator had given back a part before: the refund that the cancellation asks for finds the
  payment REFUNDED and returns nothing (services/payment/app/services.py:209-211). One paisa is
  enough: `SagaPartialRefund.PartialRefundIsKept`. A PENDING order does need compensation, in two ways.
  A charge on its way is kept: `SagaDisturbances.CancellationRacesCharge`. And inventory may handle the
  cancellation before the creation, find nothing to release and then hold and deduct the stock of a
  cancelled order: `SagaEarlyCancel.EarlyCancellationIsLost`. When money is kept and when stock is, for
  every cancelled order: `SagaTheorems.CancelledMoneyIff` and `SagaTheorems.CancelledStockIff`.
- `retry_payment` accepts an order that has already failed: `SagaLateRetry.LateRetryIsNotUndone`.
- The sweeper may reclaim stock whose payment then succeeds: `SagaDisturbances.ExpiryRacesCharge`.
- `commit_reservation` expects a missing reservation after an expiry
  (services/inventory/app/services.py:217-225). An expired reservation keeps its row, and no capture
  is ever without one: `SagaTheorems.EventsHaveTheirRows`.
- A manual refund may be partial (services/payment/app/routers/admin.py:51-53), and closes the payment
  all the same: `Payments.PartialRefundIsFinal`, and over whole runs `SagaPartialRefund.RestIsKept`.
- The limiter is called a true sliding window. What it bounds is the number of distinct members of the
  sorted set: `RateLimiters.DistinctBound`, and so the number of requests when no two are one member.
  Requests of one limiter at one instant are one member, and all of them are admitted, whatever the
  limit: `RateLimiters.SameInstantIsOneUnit`.

## Model

| member | source | states |
|---|---|---|
| `SagaTheorems.AgreementIff` | services/order/app/saga.py:139-204 | After any interleaving of requests, sweeps and deliveries, once every event about an order is settled: of an accepted order the whole total is kept and its stock deducted, and of a failed or cancelled one no money (captured less given back) and no stock is kept, if and only if, where money was captured, a cancellation found the order paid or an administrator repaid it, not in part, and inventory did not hear of it before the order (or the first attempt failed or the hold had run out); a capture by a later attempt was of a failed order and repaid, not in part; and otherwise the capture did not overtake the reservation, nobody repaid it and the hold did not run out |
| `SagaTheorems.EndedAsPlannedIff` | services/order/app/saga.py:139-188 | A settled order is accepted, paid and deducted, or failed, declined and released, or failed with neither payment nor reservation, if and only if it was not cancelled, repaid or swept and any capture came on the first attempt and in order |
| `SagaTheorems.CalmAgreementIff` | services/order/app/saga.py:144-158 | In runs without a cancellation, retry or administrator's refund of the order and without sweeps, whatever happens to other orders, a settled order ends as planned if and only if its capture did not reach the order service before its reservation, and otherwise the services disagree |
| `SagaTheorems.DisagreementIsOneOf` | services/order/app/saga.py:161-204 | Every settled disagreement has a captured payment and is one of: stuck in INVENTORY_RESERVED after an overtaking capture on the first attempt; FAILED, no stock kept, the money of a later attempt not given back or only in part; CANCELLED, money given back in part, or not paid at the time with the money kept or with the stock deducted after inventory heard of the cancellation first; or accepted, with money returned or the stock not deducted |
| `SagaTheorems.PaidCancellationIsCompensated` | services/order/app/saga.py:190-204 | After any run a settled order that was in a paid status when it was cancelled is CANCELLED, its payment REFUNDED and its reservation RELEASED or EXPIRED, and its total was given back, nothing of it kept, if and only if no administrator had given back a part before |
| `SagaTheorems.CancelledMoneyIff` | services/payment/app/services.py:195-253 | Of a settled cancelled order nothing that was captured is kept if and only if the order was in a paid status at the cancellation or an administrator repaid it, and no administrator gave back only a part |
| `SagaTheorems.CancelledStockIff` | services/inventory/app/services.py:258-330 | The stock of a settled cancelled order stays deducted if and only if inventory handled the cancellation before the creation, the first attempt was captured and no sweep found the hold expired; it never stays held |
| `SagaRefunds.RefundIsFullIff` | services/payment/app/services.py:209-252 | After any run a REFUNDED payment was given back in full if and only if no administrator's refund of a part met it SUCCEEDED |
| `SagaRefunds.RefundIsFinal` | services/payment/app/services.py:209-211 | Whatever follows a refund, the payment row stays as the refund left it |
| `SagaPartialRefund.PartialRefundIsKept` | services/payment/app/services.py:209-252 | From every reachable state with a CONFIRMED order whose payment is SUCCEEDED, and for every part of its amount: an administrator's refund of the part, a cancellation and deliveries settle everything, with the order CANCELLED while paid, its payment REFUNDED for the part only and the rest kept: the services disagree |
| `SagaPartialRefund.GoodwillIsNotCompleted` | services/payment/app/consumer.py:84-105 | The same end for every settled continuation, whatever it does |
| `SagaPartialRefund.RestIsKept` | services/payment/app/services.py:209-211 | After an administrator's refund of a part, every continuation keeps exactly the rest |
| `SagaPartialRefund.InOrderIsAccepted` | services/order/app/saga.py:139-158 | From every reachable state where an order waits for a charge that goes through, deliveries in order settle with the order CONFIRMED, its payment SUCCEEDED and its stock COMMITTED |
| `SagaPartialRefund.OrdersStay` | services/order/app/services.py:133-158 | Over any run of the system, lines, totals and owners of orders never change |
| `SagaTheorems.PaidIsCaptured` | services/order/app/services.py:133-193 | An order in a paid status has a payment, SUCCEEDED or REFUNDED, for exactly the sum of its lines and its owner, and a reservation holding its lines added up by product; the amount crosses three services unchanged |
| `SagaTheorems.RefusedIsNeverCharged` | services/inventory/app/services.py:136-147 | inventory.reserved and inventory.reservation_failed exclude each other, at most one payment.succeeded exists per order, and a refused order has no reservation, no payment and no paid status |
| `SagaTheorems.RefundCompleteness` | services/payment/app/consumer.py:84-105 | A cancellation with was_paid always finds a captured payment and leaves it REFUNDED, for the order's total unless it was refunded before: the no-payment and never-captured branches are unreachable |
| `SagaTheorems.HandledAtMostOnce` | common/common/db/idempotency.py:42-63 | In every reachable state no processed_events table names an event twice, and each names only committed outbox rows |
| `SagaTheorems.HandlersNeverRaise` | common/common/kafka/consumer.py:210-253 | On any event the system publishes, in any reachable state, none of the three consumers' handlers raises: only what breaks around a handler is retried or parked |
| `SagaSimulation.StepMoves` | services/order/app/consumer.py:71-120 | Every transaction of the system moves every order's local state by one move of the per-order automaton, or not at all; a disturbance only where the step is one, and only of the order it names |
| `SagaAutomaton.MovesKeepInv` | services/order/app/saga.py:144-204 | Each move of the automaton, disturbances included, keeps what ties status, reservation, payment and handled events together |
| `SagaAutomaton.AgreeIffUndisturbed` | services/order/app/saga.py:139-204 | For one order, once quiet: its three statuses agree exactly when nothing disturbed it, a cancellation being no disturbance when it is compensated |
| `SagaRuns.EveryRunKeepsInv` | common/common/db/session.py:43-56 | The whole-system invariant (each service's own, what they copied from one another, and every order's local state) holds after every run |
| `SagaRuns.CopiesStay` | services/order/app/services.py:133-158 | Whatever the order service does next, the lines, totals and owners that the other services copied still match the order |
| `SagaRuns.ReserveMatches` | services/inventory/app/services.py:496-529 | A granted reservation and its event carry the order's own lines, total, currency, owner and payment method |
| `SagaSimulation.PaidCancelIs` | services/order/app/saga.py:190-204 | The one cancellation event of an order carries exactly the recorded was_paid flag |
| `SagaLiveness.CanAlwaysQuiesce` | common/common/kafka/consumer.py:140-183 | Every run can be continued by deliveries alone until everything published about every order is settled |
| `SagaLiveness.FiveRounds` | common/common/kafka/consumer.py:140-183 | Rounds of inventory, payment, order, inventory and payment deliveries leave nothing published unhandled, from any state and however each round is carried out |
| `SagaLiveness.RoundHandlesAll` | common/common/kafka/consumer.py:257-287 | After one round of deliveries a service has handled everything it subscribes to, and has published only its own kinds of answer |
| `SagaDisturbances.OvertakingCaptureIsLost` | services/order/app/saga.py:81-99 | From every reachable state where an order waits for its charge: if the capture reaches the order service before the reservation, it is dropped and the order settles in INVENTORY_RESERVED with money taken and stock deducted |
| `SagaDisturbances.CalmRunsCanDisagree` | services/order/app/saga.py:81-99 | Hence each such calm run has a calm continuation in which everything is settled and the services disagree |
| `SagaDisturbances.CancellationRacesCharge` | services/order/app/saga.py:190-204 | From every reachable state where an order waits for its charge, a cancellation before the charge and deliveries in order settle with the order CANCELLED, its stock RELEASED and its payment SUCCEEDED; SagaTheorems.CancelledMoneyIff and CancelledStockIff say exactly when |
| `SagaEarlyCancel.EarlyCancellationIsLost` | services/inventory/app/services.py:258-273 | From every reachable state where inventory has not heard of an order that it could hold and that could be charged: if the cancellation reaches inventory before the creation, the order settles CANCELLED with its payment SUCCEEDED and its stock COMMITTED |
| `SagaEarlyCancel.InventoryGrants` | services/inventory/app/consumer.py:77-89 | The creation of an order with stock for it makes inventory hold the units and publish the reservation that payment can charge |
| `SagaDisturbances.ExpiryRacesCharge` | services/inventory/app/services.py:332-384 | A hold that expires before the charge settles with the order CONFIRMED and paid, and its units back on sale |
| `SagaDisturbances.QuietIsQuiescent` | common/common/kafka/consumer.py:257-287 | For orders with at most one declined attempt, having seen every kind of published event means every such event is settled under its own id |
| `SagaLateRetry.LateRetryIsNotUndone` | services/payment/app/services.py:92-118 | A retry accepted after the order failed settles with the order FAILED, the stock released and the payment SUCCEEDED |
| `SagaLateRetry.OwedAmount` | services/payment/app/services.py:66-89 | The payment for a reservation is for the reservation's total and belongs to its owner |
| `SagaCounterexamples.WaitingIsReachable` | services/inventory/app/consumer.py:77-89 | A concrete run reaches the state the disturbances start from, with a provider that captures and one that declines |
| `SagaCounterexamples.CalmDisagreementExists` | services/order/app/saga.py:81-99 | A concrete calm run with everything settled in which the services disagree |
| `SagaCounterexamples.UnheardIsReachable` | services/order/app/services.py:38-205 | A concrete run reaches a state where inventory has not heard of an order that it can hold and whose card is accepted |
| `SagaCounterexamples.CancelledAndDeductedExists` | services/inventory/app/services.py:258-273 | A concrete settled run that ends CANCELLED, SUCCEEDED and COMMITTED |
| `SagaCounterexamples.NinetyNineAreKept` | services/payment/app/routers/admin.py:51-77 | A concrete settled run that gives back one paisa of a hundred, cancels the order while it is paid and keeps ninety-nine |
| `SagaNetwork.NetworkRefines` | common/common/kafka/consumer.py:140-183 | Whatever relays, partitions, offsets, retries, dead letters and replays do, the databases are those of a run of the saga, every record in the log is the published event of its id, and no processed_events table names an event twice or one that was not published |
| `SagaNetwork.StepRefines` | common/common/kafka/consumer.py:186-287 | One step of the network is one transaction of the saga, or none |
| `SagaNetwork.NetworkInvariants` | common/common/db/outbox.py:155-189 | In every network state each group's positions and committed offsets are safe, and every row marked or sent is in the log |
| `SagaNetwork.DrainedSettles` | common/common/kafka/consumer.py:180-183 | When every row is marked, every group is at the end of every partition and no dead letter waits, every published event has been handled by everyone it is for |
| `SagaNetwork.DrainedAgreementIff` | common/common/db/outbox.py:155-189 | Over the real channel, once drained, the services agree about an order, amounts included, exactly when nothing disturbed it |
| `SagaNetwork.DrainedCompensates` | services/order/app/saga.py:190-204 | Over the real channel, once drained, an order cancelled while paid is CANCELLED, REFUNDED, and RELEASED or EXPIRED, and its total was given back if and only if no administrator had given back a part before |
| `SagaDraining.CanAlwaysDrain` | common/common/kafka/consumer.py:140-183 | Every network run, on at least one partition, can be continued until it is drained by sending and marking outbox rows, polling, and replaying dead letters, each parked at the time |
| `SagaDraining.DeliverOne` | services/order/app/routers/admin.py:148-190 | A published row that is marked can always be brought to a service that wants it, even from a dead letter |
| `SagaDraining.GoodPoll` | common/common/kafka/consumer.py:186-255 | With nothing broken, one poll moves one record on, and a record meant for the group is handled by the end of it |
| `SagaFairness.FourFairRounds` | common/common/kafka/consumer.py:140-183 | Four rounds, each bringing what was published before it to everyone it is for, settle everything: for every order of deliveries and with sweeps, refunds, shipping and stock taking in between |
| `SagaFairness.FairSchedulesSettle` | common/common/kafka/consumer.py:140-183 | The same of every schedule of the network, with crashes, lost batches, duplicates, rewinds, failed tries, junk and replays in between: a round is fair when each group at some moment of it had moved past a copy, not parked, of each event published for it before; then the services agree exactly on what was not disturbed |
| `SagaFairness.StaysSettled` | common/common/kafka/consumer.py:140-183 | Settled by waves, it stays settled while nothing is started |
| `SagaFairness.FairSchedulesDrain` | common/common/db/outbox.py:155-189 | After four fair rounds the network is drained whenever every row is marked and every group is at the end of every partition |
| `SagaFairness.PastIsHandled` | common/common/kafka/consumer.py:180-255 | A group that has moved past a copy, not parked, of an event meant for it has handled the event |
| `SagaFourRounds.ThreeRoundsAreNotEnough` | services/order/app/saga.py:161-181 | The bound is exact: a declined order's cancellation is still unheard after three fair rounds |
| `SagaExactlyOnce.OrdersExactlyOnce` | common/common/db/idempotency.py:42-63 | In every network state the order database is its own requests, in order and all of them, interleaved with exactly the events in its processed_events, once each and in marker order; none raised, each was delivered, none appears twice |
| `SagaExactlyOnce.InventoryExactlyOnce` | common/common/db/idempotency.py:42-63 | The same of the inventory database, with its sweeps and stock counts |
| `SagaExactlyOnce.PaymentsExactlyOnce` | common/common/db/idempotency.py:42-63 | The same of the payment database, with its retries and refunds |
| `SagaRelay.CycleRefines` | common/common/db/outbox.py:138-189 | One cycle of the relay of Outbox is a sequence of network steps: the same rows end up marked, the same rows reach the log in the same order, and no database changes |
| `Delivery.ExactlyOnce` | common/common/kafka/consumer.py:257-287 | For every schedule of duplicates, failures, retries, rewinds, crashes and replays, the tables equal applying the events in processed_events once each in marker order; each was delivered, none appears twice |
| `Delivery.OffsetSafety` | common/common/kafka/consumer.py:180-183 | Below every committed offset each record has been handled, parked, or has no handler |
| `Delivery.AdvanceKeepsSafe` | common/common/kafka/consumer.py:156-183 | Each turn of the loop, rewinding included, leaves nothing unresolved before a position |
| `Delivery.PollResolves` | common/common/kafka/consumer.py:186-255 | A turn that moves past a record has handled it, parked it, or found no handler |
| `Delivery.PoisonNeverBlocks` | common/common/kafka/consumer.py:226-239 | While the dead-letter topic accepts, a poison record holds its partition for one turn only |
| `Delivery.AdvanceApplies` | common/common/db/idempotency.py:42-63 | A turn either applies one unmarked event and marks it in the same transaction, or leaves the database untouched |
| `Delivery.AdvanceKeepsCopies` | common/common/kafka/consumer.py:289-322 | Every dead letter is a copy of the record its partition and offset name |
| `Delivery.ParkedIff` | common/common/kafka/consumer.py:210-255 | A record that a group handles is parked, with exactly maxRetries attempts, if and only if every attempt broke or its handler raised on an unmarked event |
| `Delivery.FirstReturnDecides` | common/common/kafka/consumer.py:210-255 | Otherwise the first attempt that does not raise decides: a marked event changes nothing, an unmarked one leaves that attempt's tables and its marker, and nothing is parked |
| `Delivery.PollParks` | common/common/kafka/consumer.py:156-255 | The same of a whole turn: the record is copied to the dead letters with maxRetries and passed, or stays while the dead-letter topic refuses it |
| `Delivery.PollHandles` | common/common/kafka/consumer.py:156-255 | And: the first attempt that does not raise takes effect, the record is passed and not parked; a lost process reads it again from the committed offset |
| `Delivery.PollPasses` | common/common/kafka/consumer.py:186-209 | An unreadable record is parked unattempted; one without a handler is passed over |
| `Delivery.OtherTicks` | common/common/kafka/consumer.py:140-183 | An arrival goes to the end of its partition, a failed poll or one at the end changes nothing, and a restart goes back to the committed offsets and forgets nothing else |
| `ConsumerServices.BaseConsumer.TryDispatch` | common/common/kafka/consumer.py:257-287 | One attempt: duplicate, commit or rollback, exactly as specified |
| `ConsumerServices.BaseConsumer.HandleRecord` | common/common/kafka/consumer.py:186-255 | The retry loop with its attempt counter takes the first attempt that does not raise, or parks after maxRetries (Delivery.ParkedIff, FirstReturnDecides); it raises only when parking fails |
| `ConsumerServices.BaseConsumer.PollOnce` | common/common/kafka/consumer.py:144-183 | Fetch, handle, then commit every partition's position or seek back, equal to the specified turn |
| `ConsumerServices.BaseConsumer.Run` | common/common/kafka/consumer.py:140-183 | The loop over whatever happens around it equals the specified run |
| `Outbox.DrainBound` | common/common/db/outbox.py:138-189 | With f rows that always fail, f below the batch size B, every other pending row is published within ceil(good / (B - f)) cycles, whatever the order |
| `Outbox.Starvation` | common/common/db/outbox.py:143-148 | The bound's condition is exact: B always-failing rows ahead of the rest mean no number of cycles publishes anything |
| `Outbox.SentOncePerMarkOrLoss` | common/common/db/outbox.py:158-189 | A row is in the broker once for being marked and once more for each lost transaction that had sent it, and never otherwise |
| `Outbox.MarkedIsSent` | common/common/db/outbox.py:181-187 | A row marked published is in the broker's log |
| `Outbox.HealthyCycleProgress` | common/common/db/outbox.py:155-189 | One cycle publishes as many good rows as fit beside the failing ones |
| `Outbox.CycleOutcome` | common/common/db/outbox.py:138-189 | One cycle, exactly: the broker gets the batch's rows that it takes, in order; if the transaction commits they are marked and each refused row counts one more attempt |
| `Outbox.OutboxPublisher.PublishBatch` | common/common/db/outbox.py:138-189 | The send loop and the marking statement equal the specified cycle, committed or lost |
| `Outbox.OutboxPublisher.Enqueue` | common/common/db/outbox.py:61-85 | Queueing appends one unpublished row |
| `InventoryTheorems.EveryRunKeepsInv` | services/inventory/app/services.py:55-456 | After any sequence of operations: reserved_qty is the HELD total, available + reserved + COMMITTED is the net supply, every balance_after is the running sum, an order's deltas cancel once released or expired, the event stream is the ledger, and both counters are non-negative |
| `InventoryTheorems.NeverOversold` | services/inventory/app/services.py:168-186 | Held and committed units never exceed what was supplied |
| `InventoryTheorems.HoldNeverViolatesChecks` | services/inventory/app/models.py:71-74 | No single statement of a granted reservation violates the CHECK constraints |
| `InventoryTheorems.SettleNeverViolatesChecks` | services/inventory/app/models.py:71-74 | Nor does any statement of commit, release, restock or expiry |
| `InventoryTheorems.GrantedIffCovered` | services/inventory/app/services.py:98-147 | A valid first request is granted exactly when every product it names has a row that covers the total over its lines |
| `InventoryTheorems.ShortagesAreExact` | services/inventory/app/services.py:120-134 | A refusal lists an item exactly for each aggregated line whose product has no row or fewer units than wanted, with the line's quantity as requested and the row's count, or 0, as available |
| `InventoryTheorems.ReleaseUndoesReserve` | services/inventory/app/services.py:258-305 | Release after reserve restores every counter |
| `InventoryTheorems.ReleaseUndoesCommit` | services/inventory/app/services.py:307-330 | Release after commit restores every counter too |
| `InventoryTheorems.CommitDeducts` | services/inventory/app/services.py:210-256 | Commit leaves available where reserve left it and gives reserved back |
| `InventoryTheorems.ReleaseIsFinal` | services/inventory/app/services.py:265-282 | A second release changes nothing and nothing is committed after a release |
| `InventoryTheorems.CommitIsIdempotent` | services/inventory/app/services.py:210-236 | A second commit changes nothing |
| `InventoryTheorems.ReserveIsIdempotent` | services/inventory/app/services.py:90-96 | A second request for a granted order holds nothing more |
| `InventoryTheorems.BatchTakesEarliest` | services/inventory/app/services.py:339-356 | A sweep that cannot take every stale reservation takes the earliest to expire |
| `InventoryTheorems.AdjustSetsTheCount` | services/inventory/app/services.py:428-456 | A stock take sets the given count and touches no hold and no other row; it fails exactly for an unknown product |
| `InventoryTheorems.RestockAdds` | services/inventory/app/services.py:387-426 | A delivery adds to a row or opens one; it fails exactly when a new row's sku is taken |
| `InventoryOutcomes.DecideOutcome` | services/inventory/app/services.py:90-147 | The exact verdict on a request, in order: no lines, a reservation of the order, a quantity that is not positive, a product that falls short, granted |
| `InventoryOutcomes.RefusalOutcome` | services/inventory/app/services.py:113-147 | A refused request writes one event and nothing else, with its own order and user: each product with fewer units than everything asked of it, or without a row, is listed once, in the order of first mention, with what was asked and what there is |
| `InventoryOutcomes.IgnoredOutcome` | services/inventory/app/services.py:90-103 | An empty, repeated or non-positive request writes nothing |
| `InventoryOutcomes.GrantOutcome` | services/inventory/app/services.py:149-208 | A granted request adds its own HELD row with its lines in ascending product order, moves exactly what it asks of each product from available to reserved, and last publishes its own data and aggregated lines |
| `InventoryOutcomes.WantedAggregates` | services/inventory/app/services.py:98-104 | Aggregated lines name each product asked for once, in the order of first mention, with everything asked of it |
| `InventoryOutcomes.MoveOutcome` | services/inventory/app/services.py:477-600 | A movement changes one row's counters, appends one ledger row and one stock event that say so, and alerts exactly for reservations and stock takes at or below the threshold |
| `InventoryOutcomes.LinesAreLedgered` | services/inventory/app/services.py:168-186 | A run over lines appends one ledger row a line, in order, with its product, signed quantity, reason and order |
| `InventoryOutcomes.CommitOutcome` | services/inventory/app/services.py:210-256 | A commit settles a HELD reservation, its units leaving the reserved ones, and leaves every other alone |
| `InventoryOutcomes.ReleaseOutcome` | services/inventory/app/services.py:258-330 | A release gives a HELD reservation's units back from reserved, a COMMITTED one's back into available, and leaves a released or expired one alone |
| `InventoryOutcomes.SweepOutcome` | services/inventory/app/services.py:332-384 | A sweep takes, of the HELD reservations that expired before now, as many as it may, those that expired first, and changes only their status among the reservations |
| `InventoryOutcomes.UpsertOutcome` | services/inventory/app/services.py:387-426 | The exact row, ledger row, event and failure of a delivery |
| `InventoryOutcomes.AdjustOutcome` | services/inventory/app/services.py:428-456 | The exact row, ledger row, events and failure of a stock take |
| `InventoryOutcomes.HandleOutcome` | services/inventory/app/consumer.py:77-125 | Which transaction each event is; a creation asks for its order's own lines, held for fifteen minutes, and raises exactly when the request is invalid |
| `InventoryInvariants.ReserveKeepsInv` | services/inventory/app/services.py:149-196 | Reserve keeps the counter, ledger and conservation invariants |
| `InventoryInvariants.SettleKeepsInv` | services/inventory/app/services.py:238-330 | So does each of the four ways a reservation leaves a status |
| `InventoryInvariants.ExpireStaleKeepsInv` | services/inventory/app/services.py:332-384 | So does a sweep |
| `InventoryInvariants.ExpireRowsTouch` | services/inventory/app/services.py:357-373 | A sweep changes the status of the rows it took and no other reservation data |
| `InventoryInvariants.StaleRowsPicked` | services/inventory/app/services.py:339-356 | The rows a sweep may take are exactly the stale ones, each once |
| `InventoryInvariants.UpsertKeepsInv` | services/inventory/app/services.py:387-426 | So does a restock |
| `InventoryInvariants.AdjustKeepsInv` | services/inventory/app/services.py:428-456 | So does a stock take |
| `InventoryLedger.MoveLinesStock` | services/inventory/app/services.py:168-186 | A run over lines changes each counter by the signed total per product and nothing else |
| `InventoryLedger.MoveLinesDeltas` | services/inventory/app/services.py:477-494 | The ledger deltas of a run over lines, by scope: all rows, rows without an order, one order's rows |
| `InventoryLedger.WantedQty` | services/inventory/app/services.py:98-104 | Aggregation keeps every product's total |
| `InventoryServices.InventoryService.Reserve` | services/inventory/app/services.py:55-208 | All-or-nothing reservation: the in-place statements leave exactly the specified tables and keep the invariant |
| `InventoryServices.InventoryService.Commit` | services/inventory/app/services.py:210-256 | Commit of a HELD reservation: the in-place statements leave exactly the specified tables and keep the invariant |
| `InventoryServices.InventoryService.Release` | services/inventory/app/services.py:258-305 | Release of a HELD or COMMITTED reservation: the in-place statements leave exactly the specified tables and keep the invariant |
| `InventoryServices.InventoryService.RestockCommitted` | services/inventory/app/services.py:307-330 | Restocking a committed reservation: the in-place statements leave exactly the specified tables |
| `InventoryServices.InventoryService.ExpireStaleReservations` | services/inventory/app/services.py:332-384 | One sweep and its count: the in-place statements leave exactly the specified tables and keep the invariant |
| `InventoryServices.InventoryService.UpsertStockItem` | services/inventory/app/services.py:387-426 | Create or restock: the in-place statements leave exactly the specified tables and keep the invariant |
| `InventoryServices.InventoryService.AdjustStock` | services/inventory/app/services.py:428-456 | Stock take: the in-place statements leave exactly the specified tables and keep the invariant |
| `InventoryServices.InventoryService.Aggregate` | services/inventory/app/services.py:98-104 | Aggregation loop, with the positive-quantity check: the in-place statements leave exactly the specified tables |
| `InventoryServices.InventoryService.FindShortages` | services/inventory/app/services.py:120-134 | Shortage loop: the in-place statements leave exactly the specified tables |
| `Sweepers.DrainBacklog` | services/inventory/app/sweeper.py:45-62 | With a fixed clock the loop makes exactly N div L + 1 sweeps, leaves no stale hold, touches nothing else, and returns exactly the stale quantity of every product |
| `Sweepers.SweepEffect` | services/inventory/app/services.py:339-384 | One sweep shrinks the backlog by min(limit, backlog) and trades stale units for available ones |
| `ReserveConcurrency.Serialisable` | services/inventory/app/services.py:106-186 | Every complete interleaving of reserve transactions that lock rows one at a time ends in the stock of a serial order, with everyone's serial verdict |
| `ReserveConcurrency.DeadlockFree` | services/inventory/app/services.py:108-113 | While one is unfinished some transaction can step |
| `ReserveOutcomes.CanAlwaysComplete` | services/inventory/app/services.py:106-117 | Every interleaving can be completed |
| `ReserveOutcomes.ExactlyTheStockIsWon` | services/inventory/app/services.py:127-147 | n orders of q units against A available: exactly min(n, A div q) win, in every interleaving |
| `ReserveOutcomes.JobsAreAscending` | services/inventory/app/services.py:111-112 | The lock order of every request is strictly ascending, as the step model assumes |
| `ReserveOutcomes.AtomicIsReserve` | services/inventory/app/services.py:149-186 | The step model's atomic transaction leaves the counters that the service's own reserve leaves |
| `ReserveOutcomes.AtomicVerdict` | services/inventory/app/services.py:120-147 | And gives the service's own verdict |
| `OrderTheorems.EveryRunKeepsInv` | services/order/app/services.py:38-254 | After any sequence of operations every order's history, total, completion, failure reason, key and event counts are right, and no committed status is PAID |
| `OrderTheorems.HistoryIsTheRun` | services/order/app/saga.py:101-114 | An order's history is one legal path from PENDING to its status, of at most six rows |
| `OrderTheorems.CancelNeverRaisesAfterItsGuard` | services/order/app/services.py:229-236 | The cancel guard admits exactly the statuses the state machine can cancel from |
| `OrderTheorems.SameOrderIffSameKey` | services/order/app/services.py:56-67 | Accepted creations get the same order exactly when they share an idempotency key |
| `OrderTheorems.OneOrderPerCreation` | services/order/app/services.py:109-122 | There are as many orders as creations that answered created |
| `OrderTheorems.CreatedEventMatches` | services/order/app/services.py:169-193 | Every order has exactly one order.created row, with its own lines and the total that is their sum |
| `OrderTheorems.RunKeeps` | services/order/app/services.py:133-158 | Later operations, price updates included, never change an order's lines, total or key |
| `OrderOutcomes.CreateReplays` | services/order/app/services.py:56-67 | A malformed request is refused; a key that was seen gets its owner the order that is there and anyone else the conflict |
| `OrderOutcomes.CreateRefusals` | services/order/app/services.py:69-95 | Otherwise unknown products are refused, all of them named in request order; else inactive ones; else mixed currencies |
| `OrderOutcomes.CreateRaces` | services/order/app/services.py:109-131 | Otherwise a key inserted meanwhile gets the other order, and a key held by an uncommitted request the conflict to retry |
| `OrderOutcomes.CreateAdds` | services/order/app/services.py:97-205 | Otherwise one PENDING row is added with the request's own products and quantities at the names, prices and currency of the moment, their sum, its payment and key, and one event with the same data |
| `OrderOutcomes.OrderIsRequested` | services/order/app/services.py:133-158 | After any operations each order is what some request asked for: its products, quantities and payment, at the prices when it was made |
| `OrderOutcomes.EventsSayTheirOrder` | services/order/app/saga.py:207-260 | After any operations every created, confirmed and cancelled event has the user and the lines of its own order, the first two its currency and the sum of its lines, the first its payment |
| `OrderOutcomes.ReservedOutcome` | services/order/app/saga.py:139-142 | The exact effect of a reservation event on any order |
| `OrderOutcomes.SucceededOutcome` | services/order/app/saga.py:144-158 | The exact effect of a capture: a reserved order passes through PAID to CONFIRMED with two history rows and announces its own lines and total; any other is left alone |
| `OrderOutcomes.DeclinedOutcome` | services/order/app/saga.py:161-181 | The exact effect of a decline: status, reason, history, completion and the unpaid cancellation with the order's lines |
| `OrderOutcomes.RefusedOutcome` | services/order/app/saga.py:183-188 | The exact effect of a refusal |
| `OrderOutcomes.CancelOutcome` | services/order/app/services.py:220-237 | The exact answer to a cancellation: unknown order, a stranger, a status that cannot be cancelled, or the row and the event it writes |
| `OrderOutcomes.AdvanceOutcome` | services/order/app/services.py:240-254 | The exact answer to shipping and delivering |
| `OrderOutcomes.LegalMoves` | common/common/order_status.py:40-54 | The whole table of transitions |
| `OrderOutcomes.PaidIsThroughPaid` | common/common/order_status.py:35-38 | A status is paid exactly when every path to it from PENDING passes PAID and it is not CANCELLED |
| `OrderOutcomes.TotalAppend` | services/order/app/services.py:137-156 | A total adds up over lines, and of one line it is unit price times quantity (TotalOne) |
| `OrderInvariants.ConfirmRow` | services/order/app/saga.py:144-158 | Passing through PAID leaves a good CONFIRMED row, confirmed for the first time |
| `OrderInvariants.CancelOrderKeepsInv` | services/order/app/services.py:220-237 | Cancelling keeps the order invariant |
| `OrderInvariants.CreateKeepsInv` | services/order/app/services.py:38-205 | Creating keeps the order invariant |
| `OrderServices.OrderSaga.Transition` | services/order/app/saga.py:56-129 | One transition: no-op, refusal, exception or move with history: the fields assigned are those of the specified row |
| `OrderServices.OrderSaga.OnInventoryReserved` | services/order/app/saga.py:139-142 | Reservation step: the fields assigned are those of the specified row |
| `OrderServices.OrderSaga.OnPaymentSucceeded` | services/order/app/saga.py:144-158 | PAID then CONFIRMED, with one event: the fields assigned are those of the specified row |
| `OrderServices.OrderSaga.OnPaymentFailed` | services/order/app/saga.py:161-181 | Failure with its announcement: the fields assigned are those of the specified row |
| `OrderServices.OrderSaga.OnReservationFailed` | services/order/app/saga.py:183-188 | Refusal: the fields assigned are those of the specified row |
| `OrderServices.OrderSaga.Cancel` | services/order/app/saga.py:190-204 | Cancellation with the was_paid flag read before the move: the fields assigned are those of the specified row |
| `OrderServices.OrderService.Price` | services/order/app/services.py:133-158 | The pricing loop accumulates exactly the priced lines and their total |
| `OrderServices.OrderService.CheckProducts` | services/order/app/services.py:73-85 | The unknown and the inactive products, in request order |
| `OrderServices.OrderService.CreateOrder` | services/order/app/services.py:38-205 | Creation, replay, every rejection, the lost race on the key and the key that an uncommitted request holds, equal to the specification and keeping the invariant |
| `OrderServices.OrderService.CancelOrder` | services/order/app/services.py:220-237 | Cancellation with its guards, equal to the specification and keeping the invariant |
| `OrderServices.OrderService.Advance` | services/order/app/services.py:240-254 | Shipping and delivering: strict transitions |
| `OrderServices.OrderService.Handle` | services/order/app/consumer.py:71-120 | The consumer's handlers on a locked order, unknown orders skipped |
| `OrderStatuses.PathsAreShort` | common/common/order_status.py:40-54 | Every path through the state machine has at most six statuses |
| `OrderStatuses.TerminalIffNothingLeaves` | common/common/order_status.py:28-30 | The terminal statuses are exactly those nothing leaves |
| `Payments.HandleKeepsInv` | services/payment/app/consumer.py:56-105 | The payment lifetime survives every handled event: no committed PENDING, one result event per attempt, at most one capture, REFUNDED exactly with one completed refund, refunds never above the captured amount |
| `Payments.RetryKeepsInv` | services/payment/app/services.py:92-118 | So it does every retry |
| `Payments.RefundKeepsInv` | services/payment/app/services.py:195-253 | And every refund |
| `Payments.FullRefundGoesThrough` | services/payment/app/services.py:220-253 | The automatic refund of a captured payment never raises, never fails at the provider and returns the captured amount in full |
| `Payments.RefundIsRepaid` | services/payment/app/services.py:220-253 | A refund of a captured payment raises for its amount or is repaid; the provider never rejects it |
| `Payments.PartialRefundIsFinal` | services/payment/app/services.py:209-211 | After a partial refund nothing more can be refunded |
| `Payments.NeverChargedTwice` | services/payment/app/services.py:58-64 | A captured payment is never charged again, by redelivery or by retry |
| `Payments.CapturedIff` | services/payment/app/mock_gateway.py:107-135 | The provider captures exactly positive amounts on other than its four refusing tokens without an injected failure; only the timeout is not retryable |
| `Payments.CaptureIsPositive` | services/payment/app/mock_gateway.py:130-135 | A capture is positive and carries a reference that a refund accepts |
| `PaymentOutcomes.RetryOutcome` | services/payment/app/services.py:92-118 | The exact answer to a retry: no payment, somebody else's, captured, refunded, or one more attempt for the payment's own amount with the new token |
| `PaymentOutcomes.ChargeOutcome` | services/payment/app/services.py:37-90 | The exact effect of a first charge: the request's own amount, owner, currency and token, one attempt, and the provider's answer as status and event; a second one changes nothing |
| `PaymentOutcomes.ChargeAnswers` | services/payment/app/mock_gateway.py:107-135 | The provider's answer to every charge, code, message and retryability included |
| `PaymentOutcomes.RefundOutcome` | services/payment/app/services.py:195-277 | The exact answer to a refund between transactions: nothing, a refused amount, or the row and the event of the amount that was asked for |
| `PaymentOutcomes.RefundOfAnyRow` | services/payment/app/services.py:216-240 | Of any captured row: what is asked is compared with what is left, and without a provider reference a failed refund is recorded and the row stays captured |
| `PaymentOutcomes.HandleOutcome` | services/payment/app/consumer.py:56-105 | Which transaction each event is: a reservation is charged for its own total and owner, the cancellation of a paid order is refunded in full |
| `SagaOwners.StrangersDoNotMatter` | services/payment/app/services.py:101-104 | Every run of the system is the run without the retries of those whose payment it is not and the cancellations of those who are neither owner nor administrator |
| `SagaOwners.AttemptsAreOwn` | services/payment/app/services.py:92-118 | After any run a payment's attempts are one for the reservation and one for each retry by its own user while it was not captured |
| `PaymentServices.PaymentService.AttemptCharge` | services/payment/app/services.py:120-193 | Provider call with its outcome recorded both ways: equal to the specification |
| `PaymentServices.PaymentService.ChargeForOrder` | services/payment/app/services.py:37-90 | Charge once, the row before the provider call: equal to the specification and keeping the lifetime |
| `PaymentServices.PaymentService.RetryPayment` | services/payment/app/services.py:92-118 | Retry with its guards: equal to the specification and keeping the lifetime |
| `PaymentServices.PaymentService.RefundForOrder` | services/payment/app/services.py:195-277 | Refund with its guards: equal to the specification and keeping the lifetime |
| `PaymentServices.PaymentService.SumCompleted` | services/payment/app/models.py:95-100 | The refunded amount: equal to the specification |
| `RateLimiters.WindowsAreBounded` | services/gateway/app/rate_limit.py:40-68 | Every half-open window of the configured length, wherever it starts and closed on either side, has at most the limit of admitted requests per bucket and identity, for any history with rejected requests included |
| `RateLimiters.SlidingWindowBound` | services/gateway/app/rate_limit.py:50-68 | The same for any set of admitted requests spread over less than the window |
| `RateLimiters.MethodBound` | services/gateway/app/rate_limit.py:33-68 | The bounds by method: the write limit for POST, PUT, PATCH and DELETE, and apart from it the read limit for everything else |
| `RateLimiters.CheckAnswers` | services/gateway/app/rate_limit.py:30-68 | The exact verdict, with what is left of the method's limit |
| `RateLimiters.DistinctBound` | services/gateway/app/rate_limit.py:50-68 | For any history: the requests admitted in a span shorter than the window have at most the limit of distinct members |
| `RateLimiters.AdmittedIffWindowFits` | services/gateway/app/rate_limit.py:50-62 | A request is admitted exactly when its window, rejected requests included, has no more distinct members than the limit |
| `RateLimiters.SameInstantIsOneUnit` | services/gateway/app/rate_limit.py:53 | For every limit of at least one: any number of requests that one limiter sees at one instant are one member, and all of them are admitted |
| `RateLimiters.RateLimiter.Check` | services/gateway/app/rate_limit.py:30-68 | Trim, add, count and expire, failing open, equal to the specification |
| `SagaTheorems.EventsHaveTheirRows` | services/order/app/consumer.py:161-168 | Every event of the saga is about an order that exists, and every payment result about one with a reservation and a payment: the unknown-order and no-reservation branches are never taken |
| `SagaRuns.NextExtends` | common/common/db/outbox.py:61-85 | Every step only appends to the outboxes |
| `InventoryInvariants.CommitKeepsInv` | services/inventory/app/services.py:210-256 | Commit keeps the inventory invariant |
| `InventoryInvariants.ReleaseKeepsInv` | services/inventory/app/services.py:258-330 | Release keeps it, held or committed |
| `InventoryInvariants.HandleKeepsInv` | services/inventory/app/consumer.py:77-125 | Every handled event keeps it |
| `OrderInvariants.HandleKeepsInv` | services/order/app/consumer.py:71-120 | Every handled event keeps the order invariant |
| `Payments.ChargeKeepsInv` | services/payment/app/services.py:37-90 | So it does the first charge of an order |
| `Inventory.Find` | services/inventory/app/models.py:94 | The reservation of an order, if there is one: the first and, with UNIQUE order ids, the only |
| `Orders.FindKey` | services/order/app/models.py:53 | The order with a key, if there is one |
| `InventoryServices.InventoryService.HoldLines` | services/inventory/app/services.py:168-186 | The loop over the sorted lines equals the specified movements |
| `InventoryServices.InventoryService.Grant` | services/inventory/app/services.py:149-196 | Row, movements and event of a granted request |
| `InventoryServices.InventoryService.Shift` | services/inventory/app/services.py:169-185 | One row's counters with its ledger row and its event |
| `InventoryServices.InventoryService.ReleaseHeld` | services/inventory/app/services.py:284-299 | Held units return |
| `InventoryServices.InventoryService.ExpireReservation` | services/inventory/app/services.py:358-373 | One stale reservation's units return |
| `InventoryServices.InventoryService.RecordLedger` | services/inventory/app/services.py:477-494 | One ledger row, appended |
| `InventoryServices.InventoryService.PublishStockChanged` | services/inventory/app/services.py:559-585 | One stock event with the row's counts |
| `InventoryServices.InventoryService.MaybePublishLowStock` | services/inventory/app/services.py:587-600 | A low-stock alert exactly when the row is at or below its threshold |
| `ConsumerServices.BaseConsumer.Park` | common/common/kafka/consumer.py:289-328 | Parking a record, or raising when the dead-letter topic refuses it |

## Left out

- HTTP routers, authentication, the gateway's proxy and routing, logging, metrics, health checks: plumbing without a deep property.
- Catalog, its cache and its copy of stock counts, notification, templates, seeds and migrations: straight-line writes, or agreement that is only eventual.
- The dead-letter collector's own table: a replay is modelled as any record of the log being appended again, which covers services/order/app/routers/admin.py:148-190.
- Unlocked reads in the administrators' routers: each service method is one transaction that reads fresh rows.
- `SagaSystem` treats catalog updates of the price read-model as steps of their own, since the catalog service is not part of this model.
- `SagaNetwork.NetworkRefines`: batches are sent row by row and marked together, without the batch size and the ordering that `Outbox` has, because the saga does not depend on them; topics are not told apart, a group passes over what it has no handler for. `SagaRelay.CycleRefines` ties the two.
- `SagaNetwork.DrainedAgreementIff`: the number of partitions is fixed, and a rebalance is a restart from the committed offsets.
- `ConsumerServices.BaseConsumer.Run`: the loop runs over a finite schedule of what happens around it; back-off delays and cancellation are left out.
- `SagaDraining.CanAlwaysDrain`: shows one way to drain, with replays to partition 0; `SagaFairness.FairSchedulesSettle` speaks of every fair schedule, and assumes fairness instead of deriving it from timers and polling intervals.
- `Outbox.DrainBound`: counts cycles of one publisher; rows that other replicas have locked are part of the batch rule but not of the bound.
- `ReserveConcurrency.DeadlockFree`: speaks of `reserve` only; commit, release and the sweep walk a reservation's items, whose order the code does not fix.
- `InventoryServices.InventoryService.Commit`: a reservation's items are visited in the order they were inserted, one of the orders the code allows; the resulting counters do not depend on it.
- `OrderServices.OrderService.CreateOrder`: whether another request holds the key without having committed is an input. Like the code, the loser of a race on the key gets the other row without a look at its owner.
- `Payments.CapturedIff`: the fraction derived from the order id and the random part of a reference are inputs, not computed.
- `Payments.ChargeKeepsInv`: transactions are atomic, so the concurrent duplicate that the UNIQUE order id stops between lookup and insert (services/payment/app/services.py:78-87, and likewise services/inventory/app/services.py:157-166) appears as the lookup finding the row.
- `Payments.NeverChargedTwice`: speaks of committed state; a crash between the provider's answer and the commit can leave a charge that no row records.
- `InventoryTheorems.RestockAdds`: a sku is put in upper case for ASCII letters only.
- `Sweepers.DrainBacklog`: speaks of one sweeper; rows that another has locked and this one skips are not modelled.
- `RateLimiters.RateLimiter.Check`: the pipeline is atomic, times are real numbers, and the method arrives in upper case.
- Product and order ids are natural numbers; their order stands for the order of UUIDs, which is the same for the bytes and for the text.
- Event ids are positions in the producer's outbox, and an order's id is its position in the orders table: both are unique and never change, which is all that is used.

# Saganova checkout saga: a verified model

Saganova runs a checkout as a saga over three event-sourced services. The order, inventory and payment services
each append events to their own store, write them to an outbox in the same transaction and keep a projection; the
orchestrator consumes the events, walks a two-step saga (reserve stock, authorise the payment) and publishes the
next command, ending with ConfirmOrder or CancelOrder. This project models those components in Dafny and proves
what the design is for.

`dafny verify dfyconfig.toml` checks everything.

## Layout

The components, written the way the source writes them (classes with fields, loops with invariants), each method
proved against a specification function:

- `Basics`, `Contracts` - option and result types, folds and sums; the commands and events the services exchange.
- `EventSourcing`, `Snapshots` - the aggregate base class and the snapshot strategy.
- `AggregateLives` - the three aggregates' objects over whole lives of calls, saves and reloads.
- `Persistence` - event rows, outbox rows and a projection row written in one transaction under the
  `(aggregateId, sequence)` index; `EventStore` - the stand-alone store whose append is not atomic.
- `OrderDomain`, `StockDomain`, `PaymentDomain` - the three aggregates and the grammar of their streams.
- `StockLedger`, `StockLocks` - the stock table, and transactions over it that interleave row by row: each lock, each
  check, each increment or decrement, the commit and an abort are steps of their own.
- `OrderService`, `InventoryService`, `PaymentService` - the command handlers and their transactions.
- `Outbox`, `OutboxOrder` - the relay, concurrent skip-locked relays, and when they keep the order of each
  aggregate's events.
- `SagaToolkit`, `OrderFulfillment` - the generic engine, and the shipped saga with its state machine.
- `SagaCrashes`, `ShippedCrashes` - crashes between publish, save and terminal publish, for any definition and for
  the shipped one.
- `Redelivery`, `ServiceRedelivery` - consumers that commit offsets after processing.

The composed protocol, as one transition system built from the same specification functions:

- `Checkout` - the state (three databases, the gateway's log, topics, saga rows, handlers in flight) and its
  actions. Messages may be delivered any number of times in any order, handlers of any number of replicas
  interleave between every two of their database or network steps, and any of them may stop for good at any point.
- `CheckoutFacts`, `CheckoutInvariant` - what the streams justify, and the inductive invariant.
- `CheckoutTheorems`, `CheckoutStock`, `CheckoutCancellations` - safety of every run; why orders are cancelled.
- `Flights` - the crash-free runs of that system in which each consumer works on one message of an order at a time.
  Everything else still interleaves, step by step: different orders, the three services and the orchestrator on one
  order, the relays, and any number of duplicates. `PlaysAreRuns` shows that these are runs of `Checkout`.
- `Progress`, `HandlerSteps`, `Quiescence` - what such runs keep, how far each single handler step brings the
  protocol, and from that termination, absence of exceptions, and what holds at rest.
- `Confirmations` - when the orders of such a run all end CONFIRMED, and that there are runs in which they do.
- `SerialCheckout` - handlers as whole calls, shown to be schedules of `Flights`.

What the infrastructure provides is taken as given: a database transaction is all or nothing, unique indexes and
row locks held to commit do what they say, a topic delivers at least once, an offset is committed only after its
message was processed, and the payment gateway gives one answer per idempotency key.

## Where the code and its documentation disagree

The model follows the code.

- The documentation has a declined payment publish ReleaseInventory (docs/sagas/order-fulfillment-saga.md:92). The
  shipped definition puts the release on the payment step itself, and compensation walks only the steps before the
  failed one. `DeclineReleasesNothing` shows the declined saga ending with CancelOrder alone,
  `UndoingComesFromOutside` that no run of the shipped saga ever publishes a release or a refund, and
  `CancelledHoldsStockExactlyWhenCharging` which cancelled orders still hold stock: in every reachable state exactly
  those that reached the gateway, unless somebody outside the saga asked for the release.
- The stock repository promises no oversell, but checks every line against the row before any increment.
  `NoOversellExactlyWhenDistinct` gives the exact condition, `DuplicateLinesOversell` a concrete oversell.
- The terminal guard of the state machine leaves out COMPENSATING. `FailureRedeliveryAbsorbedExactly` says for
  which definitions a redelivered failure publishes its compensations again. The shipped one never enters that state.
- The producer promises that all events of one aggregate stay ordered (libs/kafka-client/src/kafka-producer.service.ts:7).
  The relay goes on after a failed row and skips locked ones, so they can be sent out of order even without a failure:
  `FailureReordersAggregate`, `SkippingReordersAggregate`. When order is kept is settled exactly: for a pass with its
  failures known (`PassKeepsOrderExactly`), for a batch before any row is sent (`BatchKeepsOrderExactly`,
  `UnlockedBatchKeepsOrderExactly`), for open relays and everything they may still do
  (`OpenRelaysKeepOrderExactly`), and for the start of a relay (`NewRelayIsSafeExactly`), which settles whole runs of
  several relays (`SafelyStartedRunsKeepOrder`).
- The refund handler's comment says that a retry does not ask the gateway again once it refunded
  (apps/payment-service/src/application/commands/handlers/refund-payment.handler.ts:39-44). The call comes before the
  guard and carries no idempotency key: `EveryAttemptRefunds` shows one refund at the gateway for every call that
  reached it, however often, and at most one PAYMENT_REFUNDED.
- A crash between the terminal save and the terminal publish loses ConfirmOrder or CancelOrder for good:
  `ShippedCrashWindows`, `CancelCanBeLost`, `LostForGood`.
- History starts with a STARTED entry (libs/saga-toolkit/src/compensation-registry.ts:36), which
  test/e2e/checkout-flow.e2e-spec.ts:36-40 does not expect.

## Model

| member | source | states |
|---|---|---|
| CheckoutTheorems.CancelledIsNeverCharged | apps/notification-service/src/channels/templates.ts:13 | In every reachable state of the interleaved system a CANCELLED order has no PAYMENT_AUTHORIZED event in any payment stream and the gateway has not charged its key. |
| CheckoutTheorems.CancelledStaysUncharged | apps/payment-service/src/application/commands/handlers/authorize-payment.handler.ts:21-49 | Whatever is delivered or redelivered after the cancellation, the order stays CANCELLED and is never charged. |
| CheckoutTheorems.ConfirmedIsReservedAndPaid | apps/saga-orchestrator/src/kafka/saga-event.consumer.ts:74-94 | In every reachable state a CONFIRMED order has a reservation stream starting with INVENTORY_RESERVED whose lines are its items one by one, SKU and quantity, and a payment starting with PAYMENT_AUTHORIZED for it over the sum of quantity times unit price, which is what the gateway charged. |
| CheckoutTheorems.CancellationsNameTheirReason | apps/saga-orchestrator/src/orchestrator/saga-state-machine.ts:99-108 | In every reachable state a published CancelOrder, a stored ORDER_CANCELLED and the order's row name RESERVE_INVENTORY if the reservation failed and AUTHORIZE_PAYMENT if the gateway refused, and one of the two is the case. |
| CheckoutTheorems.CancellationsAreAskedFor | apps/order-service/src/application/commands/handlers/cancel-order.handler.ts:13-31 | In every reachable state an ORDER_CANCELLED carries the reason of a CancelOrder published for that order. |
| CheckoutTheorems.DeclinesCarryTheAnswer | apps/payment-service/src/application/commands/handlers/authorize-payment.handler.ts:45-49 | In every reachable state a PAYMENT_DECLINED carries the code and the reason the gateway recorded for its order, "unknown" and "Payment declined" standing in for what it did not give. |
| CheckoutTheorems.RefusalsNameALine | apps/inventory-service/src/infrastructure/postgres/stock.repository.ts:24-41 | In every reachable state an INVENTORY_RESERVATION_FAILED names a line of its order, with that line's quantity and a lower one as what was left. |
| CheckoutTheorems.OutcomesExclude | apps/inventory-service/src/application/commands/handlers/reserve-stock.handler.ts:29-57 | Per order at most one of RESERVED and RESERVATION_FAILED, at most one payment and so one of AUTHORIZED and DECLINED, even with concurrent duplicates; ConfirmOrder and CancelOrder are never both published. |
| CheckoutTheorems.StreamsAreGrammatical | apps/order-service/src/infrastructure/event-store/event-store.repository.ts:29-79 | In every reachable state every stream is a sentence of its grammar, every projection row is the replay of its stream at version n, and every outbox holds exactly the stored events. |
| CheckoutTheorems.FinishingCommandsFindTheirOrder | apps/order-service/src/application/commands/handlers/confirm-order.handler.ts:14-21 | No published ConfirmOrder or CancelOrder ever meets a missing order, in any run. |
| CheckoutTheorems.UndoingComesFromOutside | apps/saga-orchestrator/src/orchestrator/order-fulfillment.saga-definition.ts:41-70 | Over every run, a ReleaseInventory or RefundPayment on the topic was issued from outside the orchestrator. |
| CheckoutInvariant.ReachableIsOk | apps/saga-orchestrator/src/orchestrator/saga-state-machine.ts:37-87 | The invariant (tables consistent, streams and gateway log justified, every message, saga row and handler in flight backed by recorded evidence) holds in every reachable state. |
| CheckoutInvariant.DoKeeps | apps/saga-orchestrator/src/orchestrator/saga-state-machine.ts:37-108 | Every action of the interleaved system keeps the invariant and only adds evidence. |
| CheckoutInvariant.EvidenceOnlyGrows | libs/database/src/event-store/event-store.entity.ts:5 | Along any run from a reachable state streams are only appended to and the gateway never changes an answer. |
| CheckoutInvariant.Stepping | libs/saga-toolkit/src/compensation-registry.ts:46-58 | An engine step on a justified saga row and a recorded event of the same order yields a justified row and only justified commands. |
| CheckoutInvariant.SavingPayment | apps/payment-service/src/migrations/1700000000000-InitPaymentSchema.ts:44 | A payment that gets past the unique index on the order records what the gateway answered and keeps one payment per order. |
| CheckoutInvariant.Asking | apps/payment-service/src/application/commands/handlers/authorize-payment.handler.ts:35-43 | Asking the gateway, however often and interleaved, keeps every recorded answer, and a charge is for a reserved order at its full price. |
| CheckoutFacts.PaidIsNotDoomed | apps/payment-service/src/application/commands/handlers/authorize-payment.handler.ts:45-49 | An order with an authorised payment has neither a failed reservation nor a refused charge, and was reserved. |
| CheckoutStock.StockIsConserved | apps/inventory-service/src/application/commands/handlers/release-inventory.handler.ts:22-40 | In every reachable state of the composed system qtyReserved of each SKU is its starting value plus the quantities on all RESERVED orders, with stale loads and losing transactions. |
| CheckoutStock.ReleaseConserves | apps/inventory-service/src/application/commands/handlers/release-inventory.handler.ts:28-33 | A release from a stale load either rolls its decrement back or is the one release of that reservation. |
| CheckoutStock.NeverOversold | apps/inventory-service/src/infrastructure/postgres/stock-level.entity.ts:4-8 | If every accepted order has distinct SKUs and positive quantities, every reachable state has 0 <= qtyReserved <= qtyAvailable. |
| Flights.PlaysAreRuns | apps/saga-orchestrator/src/kafka/saga-event.consumer.ts:46-66 | Every crash-free run with one handler per consumer and order in flight is a run of the interleaved system, so all safety results carry over. |
| SerialCheckout.WholeCallIsItsSteps | apps/saga-orchestrator/src/orchestrator/saga-state-machine.ts:37-108 | Handling any command, row or event in one call has the effect of its handler's separate database, network and publish steps run with nothing in between. |
| SerialCheckout.DeliveryIsASchedule | apps/saga-orchestrator/src/kafka/saga-event.consumer.ts:46-66 | A whole-call delivery is a schedule of the crash-free system, so runs that handle one message at a time are among its runs. |
| Quiescence.ProceedProgresses | apps/saga-orchestrator/src/orchestrator/saga-state-machine.ts:57-108 | Every step of every handler in flight, interleaved with all others, keeps the invariants; a first handling leaves strictly less work, a duplicate's step changes no table and no topic. |
| Quiescence.TakeProgresses | apps/saga-orchestrator/src/kafka/saga-event.consumer.ts:46-66 | Taking up any outstanding row or message, whatever other handlers are midway, keeps the invariants and leaves strictly less work. |
| Quiescence.DuplicatesChangeNothing | apps/order-service/src/application/commands/handlers/confirm-order.handler.ts:23-31 | Taking up a message that already had its effect changes no table, saga row, topic or other handler, at any point between other handlers' steps. |
| Quiescence.NothingThrows | apps/order-service/src/application/commands/handlers/cancel-order.handler.ts:13-30 | In such runs ConfirmOrder and CancelOrder always find their order, and the next transaction of every handler in flight commits: no NotFoundException, no ConcurrencyError. |
| Quiescence.HappeningWorks | apps/saga-orchestrator/src/orchestrator/saga-state-machine.ts:57-108 | The measure over rows, messages and handlers in flight: every effective step lowers it, a submission adds at most 24, duplicates leave it as it is. |
| Quiescence.RunsAreBounded | apps/saga-orchestrator/src/kafka/saga-event.consumer.ts:46-66 | However scheduled and however many duplicates there are, at most 24 relays, deliveries and handler steps take effect per submitted order. |
| Quiescence.AtRestEveryOrderIsDecided | apps/saga-orchestrator/src/orchestrator/saga-state-machine.ts:89-108 | When no row, message or handler is left every accepted order is CONFIRMED or CANCELLED; the gateway was asked about exactly the orders whose reservation stream starts with INVENTORY_RESERVED, and CONFIRMED are exactly those of them whose recorded answer is an acceptance. |
| Quiescence.CanStep | apps/saga-orchestrator/src/orchestrator/saga-state-machine.ts:57-87 | No deadlock: in every state that is not at rest some step leaves strictly less work, whatever the gateway decides. |
| Quiescence.EveryRunCanFinish | apps/saga-orchestrator/src/orchestrator/saga-state-machine.ts:57-108 | From any point of any run, and whatever the gateway decides, rest is reached in at most as many steps as the work left. |
| CheckoutCancellations.NoNeedlessRefusal | apps/inventory-service/src/infrastructure/postgres/stock.repository.ts:22-46 | In every run of the interleaved system, with crashes, duplicates and releases from outside: if the starting table knows every SKU accepted orders name and holds enough for all of them together, with positive quantities, no reservation ever fails. |
| CheckoutCancellations.NoNeedlessCancellation | apps/saga-orchestrator/src/orchestrator/saga-state-machine.ts:99-108 | If the table also covers them and the gateway accepts every charge, no order is CANCELLED in any reachable state. |
| Confirmations.CoveredOrdersAreConfirmed | docs/sagas/order-fulfillment-saga.md:57-67 | At rest after a crash-free run under those two conditions every accepted order is CONFIRMED. |
| Confirmations.SomeRunConfirms | test/e2e/checkout-flow.e2e-spec.ts:26-41 | For every order that fits the table there is a run that submits it, comes to rest and has it CONFIRMED. |
| CheckoutStock.CancelledHoldsStockExactlyWhenCharging | docs/sagas/order-fulfillment-saga.md:84-95 | In every reachable state of the interleaved system a CANCELLED order has a reservation outcome, it is a reservation if and only if the order is in the gateway's log, and unless a ReleaseInventory for it was issued from outside the row is then, and only then, still RESERVED. |
| StockLedger.StockRepository.ReserveLinesWithinTransaction | apps/inventory-service/src/infrastructure/postgres/stock.repository.ts:22-46 | Reports the first line that is unknown or short, with its SKU, the quantity asked for and the quantity left, and then changes nothing; otherwise raises every row by the total the lines ask of it. |
| StockLedger.FirstShortage | apps/inventory-service/src/infrastructure/postgres/stock.repository.ts:24-41 | For every table and lines: no report if every line is known and covered, and otherwise a report about the first that is not, with its SKU, what it asks for and what is left. |
| StockLedger.StockRepository.ReleaseLinesWithinTransaction | apps/inventory-service/src/infrastructure/postgres/stock.repository.ts:48-52 | Lowers every row by the total the lines ask of it; unknown SKUs are passed over. |
| StockLedger.NoShortfall | apps/inventory-service/src/infrastructure/postgres/stock.repository.ts:23-41 | The check loop passes exactly if every single line would pass on its own. |
| StockLedger.ReleaseUndoesReserve | apps/inventory-service/src/infrastructure/postgres/stock.repository.ts:43-52 | Releasing the same lines restores the table. |
| StockLedger.DistinctNeverOversells | apps/inventory-service/src/infrastructure/postgres/stock.repository.ts:22-46 | With distinct SKUs and positive quantities an accepted reservation stays within stock. |
| StockLedger.NoOversellExactlyWhenDistinct | apps/inventory-service/src/infrastructure/postgres/stock.repository.ts:34-45 | The check protects every stock table if and only if no SKU is on two lines. |
| StockLedger.DuplicateLinesOversell | apps/inventory-service/src/infrastructure/postgres/stock.repository.ts:34-45 | Two lines of 3 for a SKU with 4 on hand are both accepted and 6 are reserved. |
| StockLocks.StockIsConserved | apps/inventory-service/src/application/commands/handlers/reserve-stock.handler.ts:41-45 | From any stock table, with each lock, check, single-row move, commit and abort interleaved over any number of transactions, committed reserved quantities always equal their starting values plus what unreleased reservations hold; half-done moves of an aborted transaction leave no trace. |
| StockLocks.NeverOversold | apps/inventory-service/src/infrastructure/postgres/stock.repository.ts:22-52 | Under that interleaving, from any table within stock, every committed state has 0 <= qtyReserved <= qtyAvailable when each command names distinct SKUs with positive quantities. |
| InventoryService.InventoryHandlers.ReserveInTransaction | apps/inventory-service/src/application/commands/handlers/reserve-stock.handler.ts:41-45 | Stock rows, events, outbox and projection change together, or all are as before. |
| InventoryService.InventoryHandlers.ExecuteReserve | apps/inventory-service/src/application/commands/handlers/reserve-stock.handler.ts:24-61 | Skips an order already decided; otherwise reserves every line under the new id if all are covered, or moves no stock and records the failure of the first line that is not. |
| InventoryService.InventoryHandlers.RecordFailure | apps/inventory-service/src/application/commands/handlers/reserve-stock.handler.ts:54-55 | Records the refused attempt without touching stock, or conflicts and changes nothing. |
| InventoryService.InventoryHandlers.ReleaseInTransaction | apps/inventory-service/src/application/commands/handlers/release-inventory.handler.ts:28-33 | From any, possibly stale, load: decrement, release and save, all rolled back when the guard or the save throws. |
| InventoryService.InventoryHandlers.ExecuteRelease | apps/inventory-service/src/application/commands/handlers/release-inventory.handler.ts:22-43 | NotFound for an unknown reservation, no change for a finalised one; otherwise INVENTORY_RELEASED for that reservation and its lines given back. |
| InventoryService.ReserveEffect | apps/inventory-service/src/application/commands/handlers/reserve-stock.handler.ts:24-61 | Handling ReserveStock, case by case: skipped, all lines reserved, refused for the first line that is not covered, or a conflict. |
| InventoryService.ReleaseEffect | apps/inventory-service/src/application/commands/handlers/release-inventory.handler.ts:22-43 | Handling ReleaseInventory, case by case: unknown, released with its lines given back, or finalised already. |
| OrderService.OrderHandlers.ExecuteCreate | apps/order-service/src/application/commands/handlers/create-order.handler.ts:14-32 | For an order that is not there: ORDER_CREATED with the customer, the items and the sum of quantity times unit price, its outbox row and a CREATED projection row; one that is there stays as it is (a ConcurrencyError is a duplicate). |
| OrderService.OrderHandlers.ExecuteConfirm | apps/order-service/src/application/commands/handlers/confirm-order.handler.ts:13-35 | NotFound for an unknown order, no change for a decided one; on an open one ORDER_CONFIRMED with the command's payment id, in stream, outbox and projection row. |
| OrderService.OrderHandlers.ExecuteCancel | apps/order-service/src/application/commands/handlers/cancel-order.handler.ts:13-31 | NotFound for an unknown order, no change for a decided one; on an open one ORDER_CANCELLED with the command's reason, in stream, outbox and projection row. |
| OrderService.CancelEffect | apps/order-service/src/application/commands/handlers/cancel-order.handler.ts:13-31 | Handling CancelOrder on a stream that is only CREATED appends one ORDER_CANCELLED with the command's reason, and the new row carries it. |
| OrderService.ConfirmEffect | apps/order-service/src/application/commands/handlers/confirm-order.handler.ts:13-35 | Handling ConfirmOrder on a stream that is only CREATED appends one ORDER_CONFIRMED with the command's payment id, and the new row carries it. |
| PaymentService.AuthorizePaymentHandler.Execute | apps/payment-service/src/application/commands/handlers/authorize-payment.handler.ts:21-49 | Skips an order with a payment and otherwise asks the gateway under the order's key; on success the answer is recorded as given, AUTHORIZED with amount and reference or DECLINED with the gateway's code and reason or their stand-ins; when the call throws or the save conflicts nothing is recorded and the gateway keeps what it decided. |
| PaymentService.AuthorizeEffect | apps/payment-service/src/application/commands/handlers/authorize-payment.handler.ts:21-49 | For an order without a payment the gateway's recorded or new answer is kept there and recorded here as given, in stream, outbox and projection row. |
| PaymentService.RetryAfterThrow | apps/payment-service/src/application/commands/handlers/authorize-payment.handler.ts:35-49 | After a call that threw, the next attempt ends as the first would have, with the decision the gateway had already taken if it had. |
| PaymentService.RefundPaymentHandler.Execute | apps/payment-service/src/application/commands/handlers/refund-payment.handler.ts:25-57 | NotFound for an unknown payment, an error for one without a gateway reference; otherwise the gateway is asked to refund that reference, and if its call throws nothing is recorded; if it returns, a payment refunded already stays as it is and any other gets PAYMENT_REFUNDED, or a conflict changes no table. |
| PaymentService.EveryAttemptRefunds | apps/payment-service/src/application/commands/handlers/refund-payment.handler.ts:38-53 | For a charged payment that is the only one of its order, over any number of deliveries of one RefundPayment, with gateway calls that return, throw before or throw after refunding: one refund at the gateway per call that reached it, and PAYMENT_REFUNDED recorded once, exactly if some call returned. |
| PaymentService.NothingToRefund | apps/payment-service/src/application/commands/handlers/refund-payment.handler.ts:26-36 | A payment that is unknown or was declined is answered by NotFound or the missing-reference error, and the gateway is not asked. |
| PaymentService.AuthorizePaymentHandler.RecordOutcome | apps/payment-service/src/application/commands/handlers/authorize-payment.handler.ts:45-49 | Saves AUTHORIZED or DECLINED with exactly what the reply says, or conflicts and changes nothing. |
| Persistence.EventStoreRepository.SaveWithinTransaction | apps/inventory-service/src/infrastructure/event-store/event-store.repository.ts:25-66 | Inserts an event row and an outbox row per pending event and upserts the projection, or reports the unique violation. |
| Persistence.EventStoreRepository.Save | apps/order-service/src/infrastructure/event-store/event-store.repository.ts:29-79 | The same as one transaction: on a violation nothing has changed. |
| Persistence.EventStoreRepository.LoadStream | apps/order-service/src/infrastructure/event-store/event-store.repository.ts:81-96 | Returns the aggregate's events in sequence order 1..n. |
| Persistence.EventStoreRepository.LoadAggregate | apps/payment-service/src/infrastructure/event-store/event-store.repository.ts:81-85 | Null exactly for an empty stream, otherwise an aggregate that tracks it. |
| Persistence.SaveKeepsConsistent | apps/order-service/src/infrastructure/postgres/order.repository.ts:29-45 | A save keeps projection rows equal to replays and the outbox in step with the events. |
| Persistence.SaveNextEffect | apps/order-service/src/infrastructure/event-store/event-store.repository.ts:33-76 | A one-event save from any earlier load succeeds exactly if the load is current and no unique index is hit, and then appends exactly that event. |
| Persistence.OutboxGrows | apps/order-service/src/infrastructure/event-store/event-store.repository.ts:57-66 | Outbox rows written with a save extend exactly that aggregate's outbox. |
| EventStore.PostgresEventStore.Append | libs/database/src/event-store/postgres-event-store.service.ts:15-46 | Without interference: a ConcurrencyError exactly on a version mismatch, otherwise the batch is appended. |
| EventStore.PostgresEventStore.LoadStream | libs/database/src/event-store/postgres-event-store.service.ts:48-65 | Returns exactly the events after fromSequence, in order. |
| EventStore.AppendsStayContiguous | libs/database/src/event-store/postgres-event-store.service.ts:15-46 | For any interleaving of checks and single inserts, with calls dying midway, streams are gap-free 1..n and each call landed a contiguous prefix of its batch. |
| EventStore.NoLostUpdate | libs/database/src/event-store/event-store.entity.ts:5 | Of two calls expecting the same version of an aggregate at most one lands anything. |
| EventSourcing.AggregateRoot.Apply | libs/event-sourcing-core/src/aggregate-root.base.ts:38-42 | One transition, one version step, one pending event; the object keeps tracking its stored stream. |
| EventSourcing.AggregateRoot.Hydrate | libs/event-sourcing-core/src/aggregate-root.base.ts:45-54 | Folds the history and takes its last sequence as version, so a contiguous history extends what is tracked. |
| EventSourcing.AggregateRoot.MarkEventsAsCommitted | libs/event-sourcing-core/src/aggregate-root.base.ts:57-59 | Pending events become part of the tracked stream; state and version stay. |
| EventSourcing.ReplayEqualsLive | libs/event-sourcing-core/src/aggregate-root.base.ts:38-59 | For any sequence of guarded calls and saves the live state and version equal a replay of the stored events, and version less pending is the stored length. |
| AggregateLives.OrderReplaysLive | apps/order-service/src/domain/order.aggregate.ts:53-117 | For order objects, over any calls of create, confirm and cancel and any saves: live state equals replay, and stored plus pending events are a legal order stream. |
| AggregateLives.StockReplaysLive | apps/inventory-service/src/domain/stock.aggregate.ts:89-138 | The same for reservations: reserve, fail, release. |
| AggregateLives.PaymentReplaysLive | apps/payment-service/src/domain/payment.aggregate.ts:71-124 | The same for payments: authorise, decline, refund. |
| AggregateLives.SaveAndReload | apps/order-service/src/infrastructure/event-store/event-store.repository.ts:29-96 | Saving a live object and loading it again gives its state and version back. |
| Snapshots.SnapshotRefinesReplay | libs/event-sourcing-core/src/snapshot.strategy.ts:29-32 | Folding the tail onto a snapshot of the first v events equals the full replay. |
| Snapshots.DueAtPositiveMultiples | libs/event-sourcing-core/src/snapshot.strategy.ts:24-26 | A snapshot is due exactly at the positive multiples of everyNEvents. |
| Snapshots.TailIsBounded | libs/event-sourcing-core/src/snapshot.strategy.ts:24-32 | With snapshots taken whenever due the tail is shorter than everyNEvents, or the whole history when everyNEvents is 0. |
| OrderDomain.CreateNew | apps/order-service/src/domain/order.aggregate.ts:53-61 | The new order is CREATED with its items and, accumulated item by item, the sum over all lines of quantity times unit price, and so is its pending event. |
| Contracts.TotalIsPrice | apps/order-service/src/domain/order.aggregate.ts:54 | The accumulated total is the sum over all lines of quantity times unit price. |
| OrderDomain.Confirm | apps/order-service/src/domain/order.aggregate.ts:68-74 | Exactly in CREATED: pends ORDER_CONFIRMED with the payment id and keeps it in the state; otherwise nothing changes. |
| OrderDomain.Cancel | apps/order-service/src/domain/order.aggregate.ts:76-82 | Unless CANCELLED or CONFIRMED: pends ORDER_CANCELLED with the reason and keeps it in the state; otherwise nothing changes. |
| OrderDomain.ReplayOfStream | apps/order-service/src/domain/order.aggregate.ts:92-117 | Replaying a legal stream: the first event decides the contents, the last one the status, the payment id and the cancellation reason. |
| OrderDomain.OrderCallsKeepGrammar | apps/order-service/src/domain/order.aggregate.ts:68-82 | confirm and cancel extend exactly the streams that are only CREATED, and keep the grammar. |
| StockDomain.Release | apps/inventory-service/src/domain/stock.aggregate.ts:89-98 | Exactly while RESERVED: pends INVENTORY_RELEASED with the reservation's id and order; otherwise nothing changes. |
| StockDomain.ReplayOfStream | apps/inventory-service/src/domain/stock.aggregate.ts:108-138 | Status, held lines, reservation id and failure of a legal reservation stream. |
| StockDomain.ReleaseKeepsGrammar | apps/inventory-service/src/domain/stock.aggregate.ts:89-98 | release extends exactly the streams that are only RESERVED. |
| PaymentDomain.Refund | apps/payment-service/src/domain/payment.aggregate.ts:71-82 | Exactly while AUTHORIZED: pends PAYMENT_REFUNDED over the whole amount charged, with the reason; otherwise nothing changes. |
| PaymentDomain.ReplayOfStream | apps/payment-service/src/domain/payment.aggregate.ts:92-124 | Status, order, amount, gateway reference, decline code and reason of a legal payment stream. |
| PaymentDomain.RefundKeepsGrammar | apps/payment-service/src/domain/payment.aggregate.ts:71-82 | refund extends exactly the streams that are only AUTHORIZED: at most one refund is recorded. |
| Outbox.OutboxRepository.SelectBatch | libs/database/src/outbox/outbox.abstract-repository.ts:35-42 | Picks the batch the query describes. |
| Outbox.OutboxRepository.Relay | libs/database/src/outbox/outbox.abstract-repository.ts:33-73 | Sends the batch in order and goes on after a failure; each of its rows is stamped if acknowledged and otherwise has one attempt more, and no other row changes. |
| Outbox.BatchIsOldest | libs/database/src/outbox/outbox.abstract-repository.ts:35-42 | The batch is the oldest unpublished unlocked rows, in order, none skipped. |
| Outbox.OutboxLosesNothing | libs/database/src/outbox/outbox.abstract-repository.ts:33-73 | With concurrent skip-locked relays, failures and rollbacks: stamped rows were sent, open relays have disjoint batches, no row is dropped, altered or unstamped. |
| Outbox.PassTakesOldest | libs/database/src/outbox/outbox.abstract-repository.ts:33-73 | A failure-free pass sends exactly the oldest batchSize pending rows in order and leaves the rest. |
| Outbox.DrainsInExactly | libs/database/src/outbox/outbox.abstract-repository.ts:33-73 | n pending rows drain in exactly n / batchSize passes, rounded up. |
| OutboxOrder.PassKeepsOrderExactly | libs/database/src/outbox/outbox.abstract-repository.ts:47-69 | A pass keeps every aggregate's order if and only if no row it delivers has an older, never sent row of its aggregate that was rejected in the pass or locked by another relay. |
| OutboxOrder.BatchKeepsOrderExactly | libs/kafka-client/src/kafka-producer.service.ts:7 | Before the pass: order is kept for every outcome of its publishes if and only if each row of the batch is the oldest unsent row of its aggregate. |
| OutboxOrder.UnlockedBatchKeepsOrderExactly | libs/database/src/outbox/outbox.abstract-repository.ts:35-42 | With no other relay that condition says: no two rows of the batch share an aggregate. |
| OutboxOrder.OpenRelaysKeepOrderExactly | libs/database/src/outbox/outbox.abstract-repository.ts:35-73 | Whatever the open relays and new rows still do, order is kept if and only if every row they have yet to send is the oldest unsent one of its aggregate. |
| OutboxOrder.NewRelayIsSafeExactly | libs/database/src/outbox/outbox.abstract-repository.ts:35-42 | Starting a relay keeps that condition exactly if each row of its batch is the oldest unsent one of its aggregate. |
| OutboxOrder.SafelyStartedRunsKeepOrder | libs/database/src/outbox/outbox.abstract-repository.ts:33-73 | Runs in which every relay starts so keep order, whatever fails. |
| OutboxOrder.SingleRelayKeepsOrder | libs/database/src/outbox/outbox.abstract-repository.ts:33-73 | Runs in which relays do not overlap and no publish is rejected keep order, with acknowledgements lost and relays rolled back anywhere. |
| OutboxOrder.FailureReordersAggregate | libs/database/src/outbox/outbox.abstract-repository.ts:63-68 | A rejected first row of an aggregate is sent by the next pass, after the second row of the same aggregate. |
| OutboxOrder.SkippingReordersAggregate | libs/database/src/outbox/outbox.abstract-repository.ts:40-41 | Two failure-free relays send the second row of an aggregate before its first. |
| SagaToolkit.CompensationRegistry.OnEventReceived | libs/saga-toolkit/src/compensation-registry.ts:40-59 | Advances on the success event, compensates on the failure event, ignores everything else. |
| SagaToolkit.CompensationRegistry.Compensate | libs/saga-toolkit/src/compensation-registry.ts:82-110 | Publishes the compensations of the steps before the failed one, last first; COMPENSATED exactly if there are none. |
| SagaToolkit.CompensationOrder | libs/saga-toolkit/src/compensation-registry.ts:94-102 | Command by command, the compensations published are those of the compensable steps, in descending step order. |
| SagaToolkit.RunCharacterised | libs/saga-toolkit/src/compensation-registry.ts:26-110 | For any definition and any events, the final snapshot, history and published commands of a run are exactly those its trace of successes and failure calls for. |
| SagaToolkit.FailedRunIsUndone | libs/saga-toolkit/src/compensation-registry.ts:92-102 | If each compensation is a left inverse of its step, a failed run's completed commands and published compensations compose to the identity. |
| SagaToolkit.ConsumedIsStale | libs/saga-toolkit/src/compensation-registry.ts:46-58 | What a run has just consumed, success or failure, can have no effect on it when it comes again. |
| SagaToolkit.StaleStays | apps/saga-orchestrator/src/orchestrator/saga-state-machine.ts:64-72 | Nor at any later point, whatever is delivered in between. |
| SagaToolkit.StutteringInsensitive | apps/saga-orchestrator/src/orchestrator/saga-state-machine.ts:64-80 | For definitions with distinct event types and no compensable prefix, copies of events the run consumed earlier and foreign events, inserted anywhere and any number of times, change neither the final snapshot nor the published commands. |
| SagaToolkit.FailureRedeliveryAbsorbedExactly | apps/saga-orchestrator/src/orchestrator/saga-state-machine.ts:66-72 | A redelivered failure is absorbed if and only if no earlier step has a compensation; otherwise as many compensations are published again. |
| OrderFulfillment.SagaStateMachine.Start | apps/saga-orchestrator/src/orchestrator/saga-state-machine.ts:37-48 | Starts a saga once per order; an existing row makes it a no-op. |
| OrderFulfillment.SagaStateMachine.OnStepOutcome | apps/saga-orchestrator/src/orchestrator/saga-state-machine.ts:57-87 | Ignores unknown and terminal sagas; otherwise steps the engine, saves and then announces a terminal status. For rows the orchestrator can hold, the new row and the commands are given outright for every event: AuthorizePayment, ConfirmOrder with the payment, or CancelOrder naming the step that failed. |
| OrderFulfillment.SagaStateMachine.DispatchEvent | apps/saga-orchestrator/src/kafka/saga-event.consumer.ts:74-94 | ORDER_CREATED for an order without a saga publishes one ReserveStock with every SKU and quantity of the order and saves a fresh row; everything else goes to the saga of its payload's order. |
| OrderFulfillment.CreationReservesEveryLine | apps/saga-orchestrator/src/kafka/saga-event.consumer.ts:75-81 | ORDER_CREATED for an order without a saga: exactly one ReserveStock, whose lines match the items one by one, and a row at step 0 with the order's customer and total. |
| OrderFulfillment.OutcomeFollows | apps/saga-orchestrator/src/orchestrator/saga-state-machine.ts:57-108 | For every saga row the orchestrator can hold and every other event, the next row with its history and the exact commands: a reservation failure publishes CancelOrder blaming RESERVE_INVENTORY, a decline one blaming AUTHORIZE_PAYMENT. |
| OrderFulfillment.DispatchFeeds | apps/saga-orchestrator/src/orchestrator/saga-state-machine.ts:64-72 | The guard before the engine turns away COMPLETED and COMPENSATED rows only, so what is proved of serial runs holds of dispatching. |
| OrderFulfillment.ShippedStep | apps/saga-orchestrator/src/orchestrator/order-fulfillment.saga-definition.ts:41-70 | What the engine does with every event at both steps of the shipped saga. |
| OrderFulfillment.ContextStaysRouted | apps/saga-orchestrator/src/orchestrator/saga-state-machine.ts:57-87 | Over any serial run context.orderId stays the saga id, reservationId is there from step 1 on, and COMPENSATING is never entered. |
| OrderFulfillment.RedeliveredOutcomesChangeNothing | apps/saga-orchestrator/src/orchestrator/order-fulfillment.saga-definition.ts:41-70 | The shipped saga meets those conditions: redelivered outcomes and events it does not listen to change neither its final row nor what it publishes. |
| OrderFulfillment.DeclineReleasesNothing | docs/sagas/order-fulfillment-saga.md:92 | A declined payment ends the saga COMPENSATED with CancelOrder as the only command. |
| SagaCrashes.CrashWindows | libs/saga-toolkit/src/compensation-registry.ts:76-79 | For any definition, with crashes at any await: every command on the topic is a step's command, a compensation or the announcement of the persisted row; a persisted step k means the commands of steps 0..k were published; the announcement goes out at most once, and once the saga is over and idle exactly once unless a crash hit the save-publish window. |
| ShippedCrashes.ShippedCrashWindows | apps/saga-orchestrator/src/orchestrator/saga-state-machine.ts:57-108 | For the shipped saga: a row means ReserveStock was published, a row at the payment step that AuthorizePayment was; ConfirmOrder and CancelOrder go out at most once together and only as the persisted row calls for; a finished idle saga sent one exactly if no crash hit the window. |
| ShippedCrashes.CancelCanBeLost | apps/saga-orchestrator/src/orchestrator/saga-state-machine.ts:77-86 | A run that ends COMPENSATED with its CancelOrder lost. |
| SagaCrashes.CrashFreeAnnouncesOnce | apps/saga-orchestrator/src/orchestrator/saga-state-machine.ts:69-86 | Without crashes a finished saga announced its end exactly once. |
| SagaCrashes.LostForGood | apps/saga-orchestrator/src/orchestrator/saga-state-machine.ts:66-72 | A terminal command lost to a crash is not sent by any redelivery. |
| Redelivery.ReplaysAreAbsorbed | apps/inventory-service/src/infrastructure/kafka/inventory-consumer.controller.ts:41-55 | For idempotent handlers, any mix of replays, crashes and restarts leaves the store of processing a prefix of the log once, in order. |
| Redelivery.CaughtUpMeansOnce | apps/inventory-service/src/infrastructure/kafka/inventory-consumer.controller.ts:41-55 | A consumer that reached the end of the log has the store of processing every command exactly once. |
| ServiceRedelivery.OrderServiceAbsorbsReplays | apps/order-service/src/application/commands/handlers/create-order.handler.ts:14-32 | That holds for order-service. |
| ServiceRedelivery.InventoryServiceAbsorbsReplays | apps/inventory-service/src/application/commands/handlers/reserve-stock.handler.ts:24-61 | That holds for inventory-service: streams, projections, outbox and stock counters, up to the fresh reservation ids. |
| ServiceRedelivery.PaymentServiceAbsorbsReplays | apps/payment-service/src/infrastructure/kafka/payment-consumer.controller.ts:46-85 | That holds for payment-service, for AuthorizePayment and the recorded side of RefundPayment, with a crash between the gateway's answer and its save absorbed by the idempotency key. |

## Left out

- Kafka, TypeORM and Nest wiring, HTTP controllers, the API gateway, migrations, code generation: plumbing. What they provide is listed under Layout.
- Payment, mail and SMS adapters: the gateway is a map from order to its one answer; declining, accepting and the reference are free inputs.
- Refunds at the gateway in the composed system: Checkout keeps the payment stream's side of RefundPayment, which the saga never publishes; the handler and its redelivery are modelled with the gateway's side. Whether the gateway refuses a second refund is its own decision, a call that throws.
- Audit and notification services, the producers' republish methods: off the saga's path.
- Timestamps, correlation ids, log lines and the payload's JSON form. Uuids and SKUs are numbers of which only equality is used; an id of 0 stands for the empty string of a blank aggregate.
- Money and quantities are unbounded integers; 32-bit columns and floating-point totals are not modelled. Negative quantities are allowed except where a statement asks for positive ones.
- Unknown event types in `when` cannot be written down, because events are a datatype; that error path is not modelled.
- Context keys no step reads, and the customer id of a payment, which its events do not carry.
- Payload builders that throw: the release builder does so without a reservation id, which the shipped saga never asks of it; the generic engine's builders are total.
- markCompensated, which has no caller.
- A projection row is a copy of the aggregate's state and version, where the source stores its columns one by one; the English sentence of a stock shortfall is a datatype with the same facts.
- A row lock that is held makes a transaction wait; deadlock detection by the database is not modelled beyond an abort at any point.
- everyNEvents is a natural number; a negative or fractional setting is not modelled.
- Quiescence.RunsAreBounded: covers runs without crashes and without operator-issued releases and refunds, with one handler per consumer and order in flight; a lost terminal command (CancelCanBeLost) or a release of a missing reservation, which throws and is redelivered for ever, keeps such a run from being decided.
- CheckoutStock.NeverOversold: assumes accepted orders with distinct SKUs and positive quantities; the exact condition per command is NoOversellExactlyWhenDistinct.
- Outbox.DrainsInExactly: covers a single relay without failures, as the promise does.
- OutboxOrder.BatchKeepsOrderExactly: concerns the order in which rows are sent; the table's order is insertion order, where the query sorts by a timestamp that could tie.

/** The shipped checkout saga and the state machine that persists it. */
module OrderFulfillment {
  import opened Basics
  import opened Contracts
  import opened SagaToolkit

  datatype Context = Context(orderId: OrderId, customerId: CustomerId, lines: seq<ReservationLine>, amountCents: int,
                             reservationId: Option<ReservationId>, paymentId: Option<PaymentId>)

  /** Spreading an event payload over the context; payload fields no step reads are dropped. */
  function Merge(ctx: Context, e: Event): Context
  {
    match e
    case OrderEvt(o) => (match o
      case OrderCreated(orderId, customerId, _, _) => ctx.(orderId := orderId, customerId := customerId)
      case OrderConfirmed(orderId, paymentId) => ctx.(orderId := orderId, paymentId := OrElse(paymentId, ctx.paymentId))
      case OrderCancelled(orderId, _) => ctx.(orderId := orderId))
    case StockEvt(s) => (match s
      case InventoryReserved(reservationId, orderId, lines) =>
        ctx.(orderId := orderId, reservationId := Some(reservationId), lines := lines)
      case InventoryReservationFailed(orderId, _, _) => ctx.(orderId := orderId)
      case InventoryReleased(reservationId, orderId) =>
        ctx.(orderId := orderId, reservationId := OrElse(reservationId, ctx.reservationId)))
    case PaymentEvt(p) => (match p
      case PaymentAuthorized(paymentId, orderId, amountCents, _) =>
        ctx.(orderId := orderId, paymentId := Some(paymentId), amountCents := amountCents)
      case PaymentDeclined(paymentId, orderId, _, _) => ctx.(orderId := orderId, paymentId := Some(paymentId))
      case PaymentRefunded(paymentId, orderId, amountCents, _) =>
        ctx.(orderId := orderId, paymentId := Some(paymentId), amountCents := amountCents))
  }

  function ReserveCommand(ctx: Context): Command { ReserveStock(ctx.orderId, ctx.lines) }
  function AuthorizeCommand(ctx: Context): Command { AuthorizePayment(ctx.orderId, ctx.customerId, ctx.amountCents) }
  function ReleaseCommand(ctx: Context): Command { ReleaseInventory(ctx.orderId, ctx.reservationId) }

  const RESERVE_STEP: SagaStep<EventType, Context, Command> :=
    SagaStep("RESERVE_INVENTORY", ReserveCommand, INVENTORY_RESERVED, INVENTORY_RESERVATION_FAILED, None)

  /** The release command sits on the payment step, as shipped. */
  const AUTHORIZE_STEP: SagaStep<EventType, Context, Command> :=
    SagaStep("AUTHORIZE_PAYMENT", AuthorizeCommand, PAYMENT_AUTHORIZED, PAYMENT_DECLINED, Some(ReleaseCommand))

  const ORDER_FULFILLMENT_SAGA: SagaDefinition<EventType, Context, Event, Command> :=
    SagaDefinition("order-fulfillment", [RESERVE_STEP, AUTHORIZE_STEP], Merge)

  type SagaSnapshot = Snapshot<Context>

  function AsSagaEvent(e: Event): SagaEvent<EventType, Event> { SagaEvent(TypeOf(e), e) }

  /** One engine step of the shipped saga. */
  function Step(snapshot: SagaSnapshot, e: Event): Outcome<Context, Command>
    requires snapshot.currentStepIndex < 2
  {
    OnEvent(ORDER_FULFILLMENT_SAGA, snapshot, AsSagaEvent(e))
  }

  function Begin(orderId: OrderId, customerId: CustomerId, lines: seq<ReservationLine>, amountCents: int):
    Outcome<Context, Command>
  {
    StartSaga(ORDER_FULFILLMENT_SAGA, orderId, Context(orderId, customerId, lines, amountCents, None, None))
  }

  function FailureReason(history: seq<HistoryEntry>): string
  {
    "Saga failed at step \"" + (if history == [] then "unknown" else history[|history| - 1].step) + "\""
  }

  predicate Terminal(status: SagaStatus) { status == COMPLETED || status == COMPENSATED }

  /** What is published once a terminal snapshot has been saved. */
  function TerminalCommand(snapshot: SagaSnapshot): Option<Command>
  {
    if snapshot.status == COMPLETED then Some(ConfirmOrder(snapshot.context.orderId, snapshot.context.paymentId))
    else if snapshot.status == COMPENSATED then
      Some(CancelOrder(snapshot.context.orderId, FailureReason(snapshot.history)))
    else None
  }

  function AsList<A>(o: Option<A>): seq<A> { if o.Some? then [o.value] else [] }

  type SagaRows = map<OrderId, SagaSnapshot>

  datatype Dispatched = Dispatched(rows: SagaRows, published: seq<Command>)

  ghost predicate RowsInRange(rows: SagaRows)
  {
    forall id :: id in rows ==> rows[id].currentStepIndex < 2
  }

  /** Handling one event to the end: read, publish, save, then the terminal publish. */
  function Dispatch(rows: SagaRows, e: Event): Dispatched
    requires RowsInRange(rows)
  {
    if e.OrderEvt? && e.order.OrderCreated? then
      var o := e.order;
      if o.orderId in rows then Dispatched(rows, [])
      else
        var started := Begin(o.orderId, o.customerId, ReservationLines(o.items), o.totalCents);
        Dispatched(rows[o.orderId := started.snapshot], started.published)
    else
      var orderId := OrderOf(e);
      if orderId !in rows || Terminal(rows[orderId].status) then Dispatched(rows, [])
      else
        var stepped := Step(rows[orderId], e);
        Dispatched(rows[stepped.snapshot.sagaId := stepped.snapshot],
                   stepped.published + AsList(TerminalCommand(stepped.snapshot)))
  }

  /* ---- Facts about the shipped definition ---- */

  function Entered(snapshot: SagaSnapshot, mark: Mark): seq<HistoryEntry>
  {
    snapshot.history +
        [HistoryEntry(if snapshot.currentStepIndex == 0 then "RESERVE_INVENTORY" else "AUTHORIZE_PAYMENT", mark)]
  }

  /** The engine, unfolded for the two shipped steps. */
  lemma ShippedStep(snapshot: SagaSnapshot, e: Event)
    requires snapshot.currentStepIndex < 2
    ensures
      var k, t, ctx := snapshot.currentStepIndex, TypeOf(e), Merge(snapshot.context, e);
      Step(snapshot, e) ==
        if k == 0 && t == INVENTORY_RESERVED then
          Outcome(snapshot.(context := ctx, currentStepIndex := 1, status := IN_PROGRESS,
                            history := Entered(snapshot, Succeeded)),
                  [AuthorizeCommand(ctx)])
        else if k == 1 && t == PAYMENT_AUTHORIZED then
          Outcome(snapshot.(context := ctx, status := COMPLETED, history := Entered(snapshot, Succeeded)), [])
        else if (k == 0 && t == INVENTORY_RESERVATION_FAILED) || (k == 1 && t == PAYMENT_DECLINED) then
          Outcome(snapshot.(context := ctx, status := COMPENSATED, history := Entered(snapshot, Failed)), [])
        else Outcome(snapshot, [])
  {
    var k := snapshot.currentStepIndex;
    assert ORDER_FULFILLMENT_SAGA.steps[..k] == if k == 0 then [] else [RESERVE_STEP];
    assert Compensations(ORDER_FULFILLMENT_SAGA.steps[..k], Merge(snapshot.context, e)) == [];
    assert k == 0 && TypeOf(e) == INVENTORY_RESERVED ==>
        Step(snapshot, e).published == [AuthorizeCommand(Merge(snapshot.context, e))];
    assert ORDER_FULFILLMENT_SAGA.steps[k].name == if k == 0 then "RESERVE_INVENTORY" else "AUTHORIZE_PAYMENT";
  }

  lemma ShippedIsWellFormed()
    ensures DistinctEventTypes(ORDER_FULFILLMENT_SAGA) && NoCompensablePrefix(ORDER_FULFILLMENT_SAGA)
  {
    assert ORDER_FULFILLMENT_SAGA.steps[..1] == [RESERVE_STEP];
  }

  /** What every snapshot of a saga keeps when its events carry its own order id. */
  predicate Routed(snapshot: SagaSnapshot)
  {
    && snapshot.currentStepIndex < 2
    && snapshot.context.orderId == snapshot.sagaId
    && snapshot.status in {IN_PROGRESS, COMPLETED, COMPENSATED}
    && (snapshot.currentStepIndex == 1 ==> snapshot.context.reservationId.Some?)
    && (snapshot.status == COMPLETED ==> snapshot.currentStepIndex == 1 && snapshot.context.paymentId.Some?)
  }

  /* ---- What the shipped saga does, outcome by outcome ---- */

  /** The row and the commands after ORDER_CREATED for an order without a saga: every line of the order is to be
      reserved. */
  ghost predicate Starts(created: OrderEvent, row: SagaSnapshot, published: seq<Command>)
    requires created.OrderCreated?
  {
    && |published| == 1 && published[0].ReserveStock? && published[0].orderId == created.orderId
    && |published[0].lines| == |created.items|
    && (forall i :: 0 <= i < |created.items| ==>
          published[0].lines[i].sku == created.items[i].sku && published[0].lines[i].qty == created.items[i].qty)
    && row == Snapshot(created.orderId, "order-fulfillment", 0, IN_PROGRESS,
                       Context(created.orderId, created.customerId, published[0].lines, created.totalCents, None, None),
                       [HistoryEntry("RESERVE_INVENTORY", Started)])
  }

  lemma CreationReservesEveryLine(rows: SagaRows, created: OrderEvent)
    requires RowsInRange(rows) && created.OrderCreated?
    ensures
      var d := Dispatch(rows, OrderEvt(created));
      if created.orderId in rows then d == Dispatched(rows, [])
      else
        && d.rows == rows[created.orderId := d.rows[created.orderId]]
        && Starts(created, d.rows[created.orderId], d.published)
  {
  }

  /** What one outcome event makes of a saga, and what is published: the outcome the saga is waiting for moves it on,
      everything else leaves it alone. */
  ghost predicate Follows(sn: SagaSnapshot, e: Event, after: SagaSnapshot, published: seq<Command>)
  {
    var o, ctx, k := sn.sagaId, sn.context, sn.currentStepIndex;
    if sn.status != IN_PROGRESS then after == sn && published == []
    else
      match e
      case StockEvt(InventoryReserved(reservationId, _, lines)) =>
        if k == 0 then
          && published == [AuthorizePayment(o, ctx.customerId, ctx.amountCents)]
          && after == sn.(currentStepIndex := 1, context := ctx.(reservationId := Some(reservationId), lines := lines),
                          history := sn.history + [HistoryEntry("RESERVE_INVENTORY", Succeeded)])
        else after == sn && published == []
      case StockEvt(InventoryReservationFailed(_, _, _)) =>
        if k == 0 then
          && published == [CancelOrder(o, "Saga failed at step \"RESERVE_INVENTORY\"")]
          && after == sn.(status := COMPENSATED, history := sn.history + [HistoryEntry("RESERVE_INVENTORY", Failed)])
        else after == sn && published == []
      case PaymentEvt(PaymentAuthorized(paymentId, _, amountCents, _)) =>
        if k == 1 then
          && published == [ConfirmOrder(o, Some(paymentId))]
          && after == sn.(status := COMPLETED,
                          context := ctx.(paymentId := Some(paymentId), amountCents := amountCents),
                          history := sn.history + [HistoryEntry("AUTHORIZE_PAYMENT", Succeeded)])
        else after == sn && published == []
      case PaymentEvt(PaymentDeclined(paymentId, _, _, _)) =>
        if k == 1 then
          && published == [CancelOrder(o, "Saga failed at step \"AUTHORIZE_PAYMENT\"")]
          && after == sn.(status := COMPENSATED, context := ctx.(paymentId := Some(paymentId)),
                          history := sn.history + [HistoryEntry("AUTHORIZE_PAYMENT", Failed)])
        else after == sn && published == []
      case _ => after == sn && published == []
  }

  lemma ReserveReason()
    ensures "Saga failed at step \"" + "RESERVE_INVENTORY" + "\"" == "Saga failed at step \"RESERVE_INVENTORY\""
  {
  }

  lemma AuthorizeReason()
    ensures "Saga failed at step \"" + "AUTHORIZE_PAYMENT" + "\"" == "Saga failed at step \"AUTHORIZE_PAYMENT\""
  {
  }

  /** The reason names the step that failed. */
  lemma ReasonNamesStep(history: seq<HistoryEntry>, mark: Mark)
    ensures FailureReason(history + [HistoryEntry("RESERVE_INVENTORY", mark)]) ==
        "Saga failed at step \"RESERVE_INVENTORY\""
    ensures FailureReason(history + [HistoryEntry("AUTHORIZE_PAYMENT", mark)]) ==
        "Saga failed at step \"AUTHORIZE_PAYMENT\""
  {
    ReserveReason();
    AuthorizeReason();
  }

  lemma OutcomeFollows(rows: SagaRows, e: Event)
    requires RowsInRange(rows) && !(e.OrderEvt? && e.order.OrderCreated?)
    requires OrderOf(e) in rows && rows[OrderOf(e)].sagaId == OrderOf(e) && Routed(rows[OrderOf(e)])
    ensures
      var o, d := OrderOf(e), Dispatch(rows, e);
      d.rows == rows[o := d.rows[o]] && Follows(rows[o], e, d.rows[o], d.published)
  {
    hide FailureReason;
    var sn := rows[OrderOf(e)];
    ShippedStep(sn, e);
    ReasonNamesStep(sn.history, Failed);
    var stepped := Step(sn, e);
    var none: seq<Command> := [];
    assert forall c: Command :: none + [c] == [c];
    assert stepped.published + none == stepped.published;
  }

  /* ---- The state machine as it runs ---- */

  class SagaInstanceRepository {
    var rows: SagaRows

    constructor ()
      ensures rows == map[]
    {
      rows := map[];
    }

    method FindById(sagaId: OrderId) returns (entity: Option<SagaSnapshot>)
      ensures entity == if sagaId in rows then Some(rows[sagaId]) else None
    {
      entity := if sagaId in rows then Some(rows[sagaId]) else None;
    }

    /** An unversioned upsert: whatever is there is overwritten. */
    method Save(snapshot: SagaSnapshot)
      modifies this
      ensures rows == old(rows)[snapshot.sagaId := snapshot]
    {
      rows := rows[snapshot.sagaId := snapshot];
    }
  }

  class SagaStateMachine {
    const instanceRepository: SagaInstanceRepository
    const registry: CompensationRegistry<EventType, Context, Event, Command>

    ghost predicate Wired() { registry.definition == ORDER_FULFILLMENT_SAGA }

    constructor (instanceRepository: SagaInstanceRepository,
        registry: CompensationRegistry<EventType, Context, Event, Command>)
      ensures this.instanceRepository == instanceRepository && this.registry == registry
    {
      this.instanceRepository, this.registry := instanceRepository, registry;
    }

    method Start(orderId: OrderId, customerId: CustomerId, lines: seq<ReservationLine>, amountCents: int)
      requires Wired()
      modifies instanceRepository, registry
      ensures
        var started := Begin(orderId, customerId, lines, amountCents);
        if orderId in old(instanceRepository.rows) then
          unchanged(instanceRepository) && unchanged(registry)
        else
          && instanceRepository.rows == old(instanceRepository.rows)[orderId := started.snapshot]
          && registry.published == old(registry.published) + started.published
    {
      var existing := instanceRepository.FindById(orderId);
      if existing.Some? {
        return;
      }
      var snapshot := registry.Start(orderId, Context(orderId, customerId, lines, amountCents, None, None));
      instanceRepository.Save(snapshot);
    }

    method OnStepOutcome(orderId: OrderId, e: Event)
      requires Wired() && RowsInRange(instanceRepository.rows)
      requires orderId == OrderOf(e) && !(e.OrderEvt? && e.order.OrderCreated?)
      modifies instanceRepository, registry
      ensures
        var dispatched := Dispatch(old(instanceRepository.rows), e);
        && instanceRepository.rows == dispatched.rows
        && registry.published == old(registry.published) + dispatched.published
      ensures
        var rows := old(instanceRepository.rows);
        if orderId in rows && rows[orderId].sagaId == orderId && Routed(rows[orderId]) then
          && instanceRepository.rows == rows[orderId := instanceRepository.rows[orderId]]
          && Follows(rows[orderId], e, instanceRepository.rows[orderId], Dispatch(rows, e).published)
        else orderId !in rows ==> unchanged(instanceRepository) && unchanged(registry)
    {
      hide Follows, FailureReason;
      if orderId in instanceRepository.rows && instanceRepository.rows[orderId].sagaId == orderId
         && Routed(instanceRepository.rows[orderId]) {
        OutcomeFollows(instanceRepository.rows, e);
      }
      var entity := instanceRepository.FindById(orderId);
      if entity.None? {
        return;
      }
      var snapshot := entity.value;
      if snapshot.status == COMPLETED || snapshot.status == COMPENSATED {
        return;
      }
      var updated := registry.OnEventReceived(snapshot, AsSagaEvent(e));
      instanceRepository.Save(updated);
      AnnounceIfOver(updated);
    }

    /** The terminal publish, after the save. */
    method AnnounceIfOver(updated: SagaSnapshot)
      modifies registry
      ensures registry.published == old(registry.published) + AsList(TerminalCommand(updated))
    {
      if updated.status == COMPLETED {
        registry.Publish(ConfirmOrder(updated.context.orderId, updated.context.paymentId));
      } else if updated.status == COMPENSATED {
        registry.Publish(CancelOrder(updated.context.orderId, FailureReason(updated.history)));
      }
    }

    /** The consumer's routing: ORDER_CREATED starts a saga, everything else goes to the saga of its payload's order. */
    method DispatchEvent(e: Event)
      requires Wired() && RowsInRange(instanceRepository.rows)
      modifies instanceRepository, registry
      ensures
        var dispatched := Dispatch(old(instanceRepository.rows), e);
        && instanceRepository.rows == dispatched.rows
        && registry.published == old(registry.published) + dispatched.published
      ensures e.OrderEvt? && e.order.OrderCreated? ==>
        var o, rows := e.order.orderId, old(instanceRepository.rows);
        if o in rows then unchanged(instanceRepository) && unchanged(registry)
        else
          && instanceRepository.rows == rows[o := instanceRepository.rows[o]]
          && Starts(e.order, instanceRepository.rows[o], registry.published[|old(registry.published)|..])
      ensures
        var o, rows := OrderOf(e), old(instanceRepository.rows);
        !(e.OrderEvt? && e.order.OrderCreated?) && o in rows && rows[o].sagaId == o && Routed(rows[o]) ==>
          && instanceRepository.rows == rows[o := instanceRepository.rows[o]]
          && Follows(rows[o], e, instanceRepository.rows[o], Dispatch(rows, e).published)
    {
      if e.OrderEvt? && e.order.OrderCreated? { CreationReservesEveryLine(instanceRepository.rows, e.order); }
      if e.OrderEvt? && e.order.OrderCreated? {
        Start(e.order.orderId, e.order.customerId, ReservationLines(e.order.items), e.order.totalCents);
      } else {
        OnStepOutcome(OrderOf(e), e);
      }
    }
  }

  /** The documentation says a declined payment releases the reservation. The shipped definition does not: the
      saga ends COMPENSATED with no command but CancelOrder, because the release command sits on the failed step. */
  lemma DeclineReleasesNothing(rows: SagaRows, orderId: OrderId, e: Event)
    requires RowsInRange(rows) && orderId in rows && rows[orderId].sagaId == orderId
    requires rows[orderId].status == IN_PROGRESS && rows[orderId].currentStepIndex == 1
    requires TypeOf(e) == PAYMENT_DECLINED && OrderOf(e) == orderId
    ensures
      var after := Dispatch(rows, e);
      && after.rows[orderId].status == COMPENSATED
      && after.published == [CancelOrder(orderId, "Saga failed at step \"" + "AUTHORIZE_PAYMENT" + "\"")]
  {
    ShippedStep(rows[orderId], e);
    var none: seq<Command> := [];
    var cancel := CancelOrder(orderId, "Saga failed at step \"" + "AUTHORIZE_PAYMENT" + "\"");
    assert none + [cancel] == [cancel];
  }

  /** The state machine's guard is the one of serial runs, for rows in any status: it leaves out COMPENSATING. */
  lemma DispatchFeeds(rows: SagaRows, e: Event)
    requires RowsInRange(rows) && !(e.OrderEvt? && e.order.OrderCreated?)
    requires OrderOf(e) in rows && rows[OrderOf(e)].sagaId == OrderOf(e)
    ensures
      var o, fed := OrderOf(e), Feed(ORDER_FULFILLMENT_SAGA, rows[OrderOf(e)], AsSagaEvent(e));
      && Dispatch(rows, e).rows == rows[o := fed.snapshot]
      && fed.published <= Dispatch(rows, e).published
  {
    ShippedStep(rows[OrderOf(e)], e);
  }

  /* ---- Whole runs ---- */

  function AsSagaEvents(events: seq<Event>): seq<SagaEvent<EventType, Event>>
  {
    seq(|events|, i requires 0 <= i < |events| => AsSagaEvent(events[i]))
  }

  function FeedAll(snapshot: SagaSnapshot, events: seq<Event>): Outcome<Context, Command>
    requires snapshot.currentStepIndex < 2
  {
    Serial(ORDER_FULFILLMENT_SAGA, snapshot, AsSagaEvents(events))
  }

  /** Over every serial run: context.orderId stays the saga id, the reservation id is there from step 1 on, a
      COMPLETED saga knows its payment, and COMPENSATING is never entered. */
  lemma {:induction false} ContextStaysRouted(snapshot: SagaSnapshot, events: seq<Event>)
    requires Routed(snapshot)
    requires forall i :: 0 <= i < |events| ==> OrderOf(events[i]) == snapshot.sagaId
    ensures Routed(FeedAll(snapshot, events).snapshot)
    ensures FeedAll(snapshot, events).snapshot.sagaId == snapshot.sagaId
    decreases |events|
  {
    if events != [] {
      var sagaEvents := AsSagaEvents(events);
      ShippedStep(snapshot, events[0]);
      var first := Feed(ORDER_FULFILLMENT_SAGA, snapshot, sagaEvents[0]).snapshot;
      ContextStaysRouted(first, events[1..]);
      assert sagaEvents[1..] == AsSagaEvents(events[1..]);
    }
  }

  /** Redelivered outcomes of the shipped saga, and events it does not listen to, change nothing: not the final
      row, not the commands published. */
  lemma RedeliveredOutcomesChangeNothing(snapshot: SagaSnapshot, events: seq<Event>, delivered: seq<Event>)
    requires snapshot.currentStepIndex < 2
    requires Redelivered(ORDER_FULFILLMENT_SAGA, snapshot, [], AsSagaEvents(events), AsSagaEvents(delivered))
    ensures FeedAll(snapshot, delivered) == FeedAll(snapshot, events)
  {
    ShippedIsWellFormed();
    StutteringInsensitive(ORDER_FULFILLMENT_SAGA, snapshot, AsSagaEvents(events), AsSagaEvents(delivered));
  }
}

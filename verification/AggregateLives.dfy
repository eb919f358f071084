/** The three aggregates lived as objects and rebuilt from their streams: any sequence of domain calls and saves. */
module AggregateLives {
  import opened Basics
  import opened Contracts
  import opened EventSourcing
  import opened Persistence
  import OD = OrderDomain
  import SD = StockDomain
  import PD = PaymentDomain

  /* ---- The domain calls, with their guards ---- */

  datatype OrderCall =
    | Create(customerId: CustomerId, items: seq<OrderLineItem>)
    | Confirm(paymentId: Option<PaymentId>)
    | Cancel(reason: string)

  /** A new object is created once; confirm and cancel decide by their guards. */
  function OrderDecides(id: OrderId, state: OD.OrderState, call: OrderCall): Option<OrderEvent>
  {
    match call
    case Create(customerId, items) =>
      if state.status == OD.UNINITIALIZED then Some(OrderCreated(id, customerId, items, Total(items))) else None
    case Confirm(paymentId) => OD.Confirming(id, state, paymentId)
    case Cancel(reason) => if state.status == OD.UNINITIALIZED then None else OD.Cancelling(id, state, reason)
  }

  datatype StockCall =
    | Reserve(reservationId: ReservationId, lines: seq<ReservationLine>)
    | Fail(sku: Sku, shortfall: ShortfallReason)
    | Release

  function StockDecides(id: OrderId, state: SD.StockState, call: StockCall): Option<StockEvent>
  {
    match call
    case Reserve(reservationId, lines) =>
      if state.status == SD.UNINITIALIZED then Some(InventoryReserved(reservationId, id, lines)) else None
    case Fail(sku, shortfall) =>
      if state.status == SD.UNINITIALIZED then Some(InventoryReservationFailed(id, sku, shortfall)) else None
    case Release => SD.Releasing(id, state)
  }

  datatype PaymentCall =
    | Authorize(orderId: OrderId, amountCents: int, pspReference: nat)
    | Decline(orderId: OrderId, declineCode: string, declineReason: string)
    | Refund(refundReason: Option<string>)

  function PaymentDecides(id: PaymentId, state: PD.PaymentState, call: PaymentCall): Option<PaymentEvent>
  {
    match call
    case Authorize(orderId, amountCents, pspReference) =>
      if state.status == PD.UNINITIALIZED then Some(PaymentAuthorized(id, orderId, amountCents, pspReference)) else None
    case Decline(orderId, declineCode, declineReason) =>
      if state.status == PD.UNINITIALIZED then Some(PaymentDeclined(id, orderId, declineCode, declineReason)) else None
    case Refund(reason) => PD.Refunding(id, state, reason)
  }

  /* ---- Lives ---- */

  function OrderGuards(id: OrderId): (OD.OrderState, OrderCall) -> Option<OrderEvent>
  {
    (state, call) => OrderDecides(id, state, call)
  }

  function OrderLife(id: OrderId, ops: seq<Op<OrderCall>>): Life<OD.OrderState, OrderEvent>
  {
    Live(OrderGuards(id), OD.When, OD.BLANK_STATE, ops)
  }

  function StockGuards(id: OrderId): (SD.StockState, StockCall) -> Option<StockEvent>
  {
    (state, call) => StockDecides(id, state, call)
  }

  function StockLife(id: OrderId, ops: seq<Op<StockCall>>): Life<SD.StockState, StockEvent>
  {
    Live(StockGuards(id), SD.When, SD.BLANK_STATE, ops)
  }

  function PaymentGuards(id: PaymentId): (PD.PaymentState, PaymentCall) -> Option<PaymentEvent>
  {
    (state, call) => PaymentDecides(id, state, call)
  }

  function PaymentLife(id: PaymentId, ops: seq<Op<PaymentCall>>): Life<PD.PaymentState, PaymentEvent>
  {
    Live(PaymentGuards(id), PD.When, PD.BLANK_STATE, ops)
  }

  /** The live object is the replay of its events, its version less the pending events is the stored length, and once
      saved it is what hydrating a blank object from the stored stream gives. */
  predicate Replays<S(==), E>(l: Life<S, E>, reducer: (S, E) -> S, blank: S)
  {
    && l.state == Fold(reducer, blank, l.stored + l.uncommitted)
    && l.version - |l.uncommitted| == |l.stored|
    && (l.uncommitted == [] ==> l.state == Fold(reducer, blank, l.stored) && l.version == |l.stored|)
  }

  lemma OrderCallIsLegal(id: OrderId, events: seq<OrderEvent>, call: OrderCall)
    requires events == [] || OD.OrderStream(id, events)
    ensures
      var raised := OrderDecides(id, OD.Replay(events), call);
      raised.Some? ==> OD.OrderStream(id, events + [raised.value])
  {
    if events != [] { OD.ReplayOfStream(id, events); }
  }

  /** An order object replays, and its stored and pending events together are nothing yet or a legal order stream. */
  lemma OrderReplaysLive(id: OrderId, ops: seq<Op<OrderCall>>)
    ensures
      var l := OrderLife(id, ops);
      && Replays(l, OD.When, OD.BLANK_STATE)
      && (l.stored + l.uncommitted == [] || OD.OrderStream(id, l.stored + l.uncommitted))
  {
    var legal := (events: seq<OrderEvent>) => events == [] || OD.OrderStream(id, events);
    ReplayEqualsLive(OrderGuards(id), OD.When, OD.BLANK_STATE, ops);
    forall events, call | legal(events) && OrderGuards(id)(OD.Replay(events), call).Some?
      ensures legal(events + [OrderGuards(id)(OD.Replay(events), call).value])
    {
      OrderCallIsLegal(id, events, call);
    }
    LivesStayLegal(OrderGuards(id), OD.When, OD.BLANK_STATE, legal, ops);
  }

  lemma StockCallIsLegal(id: OrderId, events: seq<StockEvent>, call: StockCall)
    requires events == [] || SD.StockStream(id, events)
    ensures
      var raised := StockDecides(id, SD.Replay(events), call);
      raised.Some? ==> SD.StockStream(id, events + [raised.value])
  {
    if events != [] { SD.ReplayOfStream(id, events); }
  }

  lemma StockReplaysLive(id: OrderId, ops: seq<Op<StockCall>>)
    ensures
      var l := StockLife(id, ops);
      && Replays(l, SD.When, SD.BLANK_STATE)
      && (l.stored + l.uncommitted == [] || SD.StockStream(id, l.stored + l.uncommitted))
  {
    var legal := (events: seq<StockEvent>) => events == [] || SD.StockStream(id, events);
    ReplayEqualsLive(StockGuards(id), SD.When, SD.BLANK_STATE, ops);
    forall events, call | legal(events) && StockGuards(id)(SD.Replay(events), call).Some?
      ensures legal(events + [StockGuards(id)(SD.Replay(events), call).value])
    {
      StockCallIsLegal(id, events, call);
    }
    LivesStayLegal(StockGuards(id), SD.When, SD.BLANK_STATE, legal, ops);
  }

  lemma PaymentCallIsLegal(id: PaymentId, events: seq<PaymentEvent>, call: PaymentCall)
    requires events == [] || PD.PaymentStream(id, events)
    ensures
      var raised := PaymentDecides(id, PD.Replay(events), call);
      raised.Some? ==> PD.PaymentStream(id, events + [raised.value])
  {
    if events != [] { PD.ReplayOfStream(id, events); }
  }

  lemma PaymentReplaysLive(id: PaymentId, ops: seq<Op<PaymentCall>>)
    ensures
      var l := PaymentLife(id, ops);
      && Replays(l, PD.When, PD.BLANK_STATE)
      && (l.stored + l.uncommitted == [] || PD.PaymentStream(id, l.stored + l.uncommitted))
  {
    var legal := (events: seq<PaymentEvent>) => events == [] || PD.PaymentStream(id, events);
    ReplayEqualsLive(PaymentGuards(id), PD.When, PD.BLANK_STATE, ops);
    forall events, call | legal(events) && PaymentGuards(id)(PD.Replay(events), call).Some?
      ensures legal(events + [PaymentGuards(id)(PD.Replay(events), call).value])
    {
      PaymentCallIsLegal(id, events, call);
    }
    LivesStayLegal(PaymentGuards(id), PD.When, PD.BLANK_STATE, legal, ops);
  }

  /** Saving a live object and loading it again gives the same state and version. */
  method SaveAndReload<S, E(!new)>(repository: EventStoreRepository<S, E>, aggregate: AggregateRoot<S, E>,
      ghost t: Tables<E, S>)
    returns (ok: bool, again: AggregateRoot?<S, E>)
    requires repository.Shows(t) && aggregate.Tracks(t.Stream(aggregate.id)) && aggregate.uncommitted != []
    requires aggregate.reducer == repository.reducer && aggregate.blank == repository.blank
    modifies repository, aggregate
    ensures ok ==>
      && again != null && again.state == old(aggregate.state) && again.version == old(aggregate.version)
      && again.uncommitted == []
  {
    ghost var stored, pending := t.Stream(aggregate.id), aggregate.uncommitted;
    ghost var row := Projection(aggregate.state, aggregate.version);
    ok := repository.Save(aggregate, t);
    again := null;
    if ok {
      ghost var saved := SaveTables(repository.clash, t, aggregate.id, |stored|, pending, row).value;
      assert saved.Stream(aggregate.id) == stored + pending;
      again := repository.LoadAggregate(aggregate.id, saved);
    }
  }
}

/** The order aggregate: CREATED, then at most one of CONFIRMED and CANCELLED. */
module OrderDomain {
  import opened Basics
  import opened Contracts
  import opened EventSourcing

  datatype OrderStatus = UNINITIALIZED | CREATED | CONFIRMED | CANCELLED

  datatype OrderState =
      OrderState(status: OrderStatus, customerId: CustomerId, items: seq<OrderLineItem>, totalCents: int,
                                   paymentId: Option<PaymentId>, cancelReason: Option<string>)

  /** 0 stands for the empty customer id. */
  const BLANK_STATE := OrderState(UNINITIALIZED, 0, [], 0, None, None)

  function When(state: OrderState, e: OrderEvent): OrderState
  {
    match e
    case OrderCreated(_, customerId, items, totalCents) =>
      OrderState(CREATED, customerId, items, totalCents, None, None)
    case OrderConfirmed(_, paymentId) => state.(status := CONFIRMED, paymentId := paymentId)
    case OrderCancelled(_, reason) => state.(status := CANCELLED, cancelReason := Some(reason))
  }

  function Replay(events: seq<OrderEvent>): OrderState { Fold(When, BLANK_STATE, events) }

  /** confirm: None when the guard throws OrderAlreadyFinalizedError. */
  function Confirming(id: OrderId, state: OrderState, paymentId: Option<PaymentId>): Option<OrderEvent>
  {
    if state.status != CREATED then None else Some(OrderConfirmed(id, paymentId))
  }

  /** cancel: None when the guard throws OrderAlreadyFinalizedError. */
  function Cancelling(id: OrderId, state: OrderState, reason: string): Option<OrderEvent>
  {
    if state.status == CANCELLED || state.status == CONFIRMED then None else Some(OrderCancelled(id, reason))
  }

  /** The only streams an order may have. */
  predicate OrderStream(id: OrderId, events: seq<OrderEvent>)
  {
    && 1 <= |events| <= 2
    && events[0].OrderCreated? && events[0].orderId == id && events[0].totalCents == Total(events[0].items)
    && (|events| == 2 ==> (events[1].OrderConfirmed? || events[1].OrderCancelled?) && events[1].orderId == id)
  }

  /** What replaying a legal stream gives: its last event decides the status, its first event the contents. */
  lemma ReplayOfStream(id: OrderId, events: seq<OrderEvent>)
    requires OrderStream(id, events)
    ensures
      var s, created := Replay(events), events[0];
      && s.customerId == created.customerId && s.items == created.items && s.totalCents == created.totalCents
      && s.status == (if |events| == 1 then CREATED else if events[1].OrderConfirmed? then CONFIRMED else CANCELLED)
      && s.paymentId == (if s.status == CONFIRMED then events[1].confirmedPaymentId else None)
      && s.cancelReason == (if s.status == CANCELLED then Some(events[1].cancelReason) else None)
  {
    FoldSnoc(When, BLANK_STATE, [], events[0]);
    assert [] + [events[0]] == [events[0]];
    if |events| == 1 {
      assert events == [events[0]];
    } else {
      FoldSnoc(When, BLANK_STATE, [events[0]], events[1]);
      assert events == [events[0]] + [events[1]];
    }
  }

  /** confirm and cancel extend exactly the streams that are only CREATED, and keep the grammar. */
  lemma OrderCallsKeepGrammar(id: OrderId, events: seq<OrderEvent>, paymentId: Option<PaymentId>, reason: string)
    requires OrderStream(id, events)
    ensures
      var confirmed, cancelled := Confirming(id, Replay(events), paymentId), Cancelling(id, Replay(events), reason);
      && (confirmed.Some? <==> |events| == 1) && (cancelled.Some? <==> |events| == 1)
      && (confirmed.Some? ==> OrderStream(id, events + [confirmed.value]))
      && (cancelled.Some? ==> OrderStream(id, events + [cancelled.value]))
  {
    ReplayOfStream(id, events);
  }

  type OrderAggregate = AggregateRoot<OrderState, OrderEvent>

  ghost predicate IsOrder(a: OrderAggregate) { a.reducer == When && a.blank == BLANK_STATE }

  /** A new order: the total is accumulated over the items, and ORDER_CREATED is pending. */
  method CreateNew(orderId: OrderId, customerId: CustomerId, items: seq<OrderLineItem>) returns (a: OrderAggregate)
    ensures fresh(a) && IsOrder(a) && a.id == orderId && a.version == 1
    ensures a.uncommitted == [OrderCreated(orderId, customerId, items, Total(items))]
    ensures a.state == OrderState(CREATED, customerId, items, Price(items), None, None)
    ensures a.uncommitted[0].totalCents == Sum(UpTo(|items|), LineCosts(items))
    ensures OrderStream(orderId, a.uncommitted) && a.Tracks([]) && a.state == Replay(a.uncommitted)
  {
    var totalCents := 0;
    for i := 0 to |items|
      invariant totalCents == Total(items[..i])
    {
      assert items[..i + 1][..i] == items[..i];
      totalCents := totalCents + items[i].qty * items[i].unitPriceCents;
    }
    assert items[..|items|] == items;
    TotalIsPrice(items);
    a := new AggregateRoot(orderId, BLANK_STATE, When);
    a.Apply(OrderCreated(orderId, customerId, items, totalCents));
    assert [] + a.uncommitted == a.uncommitted;
  }

  method Confirm(a: OrderAggregate, paymentId: Option<PaymentId>) returns (ok: bool)
    requires IsOrder(a)
    modifies a
    ensures ok <==> old(a.state.status) == CREATED
    ensures !ok ==> unchanged(a)
    ensures ok ==>
      && a.uncommitted == old(a.uncommitted) + [OrderConfirmed(a.id, paymentId)]
      && a.state == old(a.state).(status := CONFIRMED, paymentId := paymentId)
      && a.version == old(a.version) + 1
      && forall stored :: old(a.Tracks(stored)) ==> a.Tracks(stored)
  {
    if a.state.status != CREATED {
      return false;
    }
    a.Apply(OrderConfirmed(a.id, paymentId));
    ok := true;
  }

  method Cancel(a: OrderAggregate, reason: string) returns (ok: bool)
    requires IsOrder(a)
    modifies a
    ensures ok <==> old(a.state.status) !in {CONFIRMED, CANCELLED}
    ensures !ok ==> unchanged(a)
    ensures ok ==>
      && a.uncommitted == old(a.uncommitted) + [OrderCancelled(a.id, reason)]
      && a.state == old(a.state).(status := CANCELLED, cancelReason := Some(reason))
      && a.version == old(a.version) + 1
      && forall stored :: old(a.Tracks(stored)) ==> a.Tracks(stored)
  {
    if a.state.status == CANCELLED || a.state.status == CONFIRMED {
      return false;
    }
    a.Apply(OrderCancelled(a.id, reason));
    ok := true;
  }
}

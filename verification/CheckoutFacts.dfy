/** What the event streams and the gateway's log justify: the evidence every message, saga row and handler of
    the composed system rests on. Evidence only grows, so what is justified once stays justified. */
module CheckoutFacts {
  import opened Basics
  import opened Contracts
  import opened SagaToolkit
  import opened OrderFulfillment
  import opened PaymentService
  import opened Checkout
  import OD = OrderDomain
  import SD = StockDomain
  import PD = PaymentDomain

  datatype Facts = Facts(orders: map<OrderId, seq<OrderEvent>>, stock: map<OrderId, seq<StockEvent>>,
                         payments: map<PaymentId, seq<PaymentEvent>>, gateway: Gateway) {

    function OrderAt(o: OrderId): seq<OrderEvent> { if o in orders then orders[o] else [] }

    function StockAt(o: OrderId): seq<StockEvent> { if o in stock then stock[o] else [] }

    function PaymentAt(p: PaymentId): seq<PaymentEvent> { if p in payments then payments[p] else [] }
  }

  function FactsOf(s: State): Facts
  {
    Facts(s.orders.streams, s.inventory.tables.streams, s.payments.tables.streams, s.payments.gateway)
  }

  predicate OrderKept(f: Facts, g: Facts, o: OrderId) { f.OrderAt(o) <= g.OrderAt(o) }

  predicate StockKept(f: Facts, g: Facts, o: OrderId) { f.StockAt(o) <= g.StockAt(o) }

  predicate PaymentKept(f: Facts, g: Facts, p: PaymentId) { f.PaymentAt(p) <= g.PaymentAt(p) }

  predicate ReplyKept(f: Facts, g: Facts, o: OrderId) {
    o in f.gateway ==> o in g.gateway && g.gateway[o] == f.gateway[o]
  }

  /** Streams are appended to and the gateway never changes its mind. */
  ghost predicate Extends(f: Facts, g: Facts)
  {
    && (forall o :: OrderKept(f, g, o))
    && (forall o :: StockKept(f, g, o))
    && (forall p :: PaymentKept(f, g, p))
    && (forall o :: ReplyKept(f, g, o))
  }

  /* ---- Evidence about one order ---- */

  predicate Placed(f: Facts, o: OrderId)
  {
    f.OrderAt(o) != [] && f.OrderAt(o)[0].OrderCreated? && f.OrderAt(o)[0].orderId == o
      && f.OrderAt(o)[0].totalCents == Total(f.OrderAt(o)[0].items)
  }

  function ItemsOf(f: Facts, o: OrderId): seq<OrderLineItem>
    requires Placed(f, o)
  {
    f.OrderAt(o)[0].items
  }

  /** The reservation stream starts with INVENTORY_RESERVED for exactly the order's lines. */
  predicate Reserved(f: Facts, o: OrderId)
  {
    && Placed(f, o)
    && f.StockAt(o) != [] && f.StockAt(o)[0].InventoryReserved?
    && f.StockAt(o)[0].lines == ReservationLines(ItemsOf(f, o))
  }

  /** Payment p starts with PAYMENT_AUTHORIZED for the order, over the order's price. */
  predicate Paid(f: Facts, o: OrderId, p: PaymentId)
  {
    && Placed(f, o)
    && f.PaymentAt(p) != [] && f.PaymentAt(p)[0].PaymentAuthorized?
    && f.PaymentAt(p)[0].orderId == o && f.PaymentAt(p)[0].amountCents == Total(ItemsOf(f, o))
  }

  predicate Unstocked(f: Facts, o: OrderId)
  {
    f.StockAt(o) != [] && f.StockAt(o)[0].InventoryReservationFailed?
  }

  /** The order cannot be fulfilled: the stock was short, or the gateway refused the charge. */
  predicate Doomed(f: Facts, o: OrderId)
  {
    Placed(f, o) && (Unstocked(f, o) || (o in f.gateway && f.gateway[o].Refused?))
  }

  predicate ChargeRefused(f: Facts, o: OrderId) { o in f.gateway && f.gateway[o].Refused? }

  /** Payment p records that the order's charge was declined. */
  predicate Declined(f: Facts, o: OrderId, p: PaymentId)
  {
    f.PaymentAt(p) != [] && f.PaymentAt(p)[0].PaymentDeclined? && f.PaymentAt(p)[0].orderId == o
  }

  /** The reason names the step at which the order really failed. */
  predicate CancelledFor(f: Facts, o: OrderId, reason: string)
  {
    && Placed(f, o)
    && ((Unstocked(f, o) && reason == "Saga failed at step \"RESERVE_INVENTORY\"")
        || (ChargeRefused(f, o) && reason == "Saga failed at step \"AUTHORIZE_PAYMENT\""))
  }

  /** What a saga of the shipped definition has been through. */
  function ShippedHistory(step: nat, status: SagaStatus): seq<HistoryEntry>
  {
    var started, reserved := HistoryEntry("RESERVE_INVENTORY", Started), HistoryEntry("RESERVE_INVENTORY", Succeeded);
    if step == 0 && status == COMPENSATED then [started, HistoryEntry("RESERVE_INVENTORY", Failed)]
    else if step == 0 then [started]
    else if status == COMPENSATED then [started, reserved, HistoryEntry("AUTHORIZE_PAYMENT", Failed)]
    else if status == COMPLETED then [started, reserved, HistoryEntry("AUTHORIZE_PAYMENT", Succeeded)]
    else [started, reserved]
  }

  /* ---- What the streams and the gateway's log themselves satisfy ---- */

  predicate OrderOk(f: Facts, o: OrderId)
  {
    var events := f.OrderAt(o);
    && OD.OrderStream(o, events)
    && (|events| == 2 && events[1].OrderConfirmed? ==>
        events[1].confirmedPaymentId.Some? && Paid(f, o, events[1].confirmedPaymentId.value))
    && (|events| == 2 && events[1].OrderCancelled? ==> CancelledFor(f, o, events[1].cancelReason))
  }

  predicate RefusedLine(item: OrderLineItem, sku: Sku, why: ShortfallReason)
  {
    item.sku == sku && (why.OnlyAvailable? ==> why.requested == item.qty && why.available < why.requested)
  }

  /** A refusal is about a line of the order, and says what that line asked for. */
  predicate RefusedFor(f: Facts, o: OrderId, sku: Sku, why: ShortfallReason)
  {
    Placed(f, o) && exists i :: 0 <= i < |ItemsOf(f, o)| && RefusedLine(ItemsOf(f, o)[i], sku, why)
  }

  predicate StockOk(f: Facts, o: OrderId)
  {
    && SD.StockStream(o, f.StockAt(o))
    && Placed(f, o)
    && (f.StockAt(o)[0].InventoryReservationFailed? ==>
          RefusedFor(f, o, f.StockAt(o)[0].sku, f.StockAt(o)[0].shortfall))
    && (f.StockAt(o)[0].InventoryReserved? ==> Reserved(f, o))
  }

  /** A decline carries the code and the reason the gateway gave, or a stand-in where it gave none. */
  predicate DeclinedAs(e: PaymentEvent, reply: GatewayReply)
    requires e.PaymentDeclined?
  {
    && reply.Refused?
    && e.declineCode == (if reply.declineCode.Some? then reply.declineCode.value else "unknown")
    && e.declineReason == (if reply.reason.Some? then reply.reason.value else "Payment declined")
  }

  predicate PaymentOk(f: Facts, p: PaymentId)
  {
    var events := f.PaymentAt(p);
    && PD.PaymentStream(p, events)
    && events[0].orderId in f.gateway
    && (events[0].PaymentAuthorized? ==>
          && Paid(f, events[0].orderId, p)
          && f.gateway[events[0].orderId] == Approved(events[0].amountCents, events[0].pspReference))
    && (events[0].PaymentDeclined? ==> DeclinedAs(events[0], f.gateway[events[0].orderId]))
  }

  predicate GatewayOk(f: Facts, o: OrderId)
  {
    && o in f.gateway
    && Reserved(f, o)
    && (f.gateway[o].Approved? ==> f.gateway[o].amountCents == Total(ItemsOf(f, o)))
  }

  predicate SameOrderPaid(f: Facts, p: PaymentId, q: PaymentId)
  {
    f.PaymentAt(p) != [] && f.PaymentAt(q) != [] && f.PaymentAt(p)[0].orderId == f.PaymentAt(q)[0].orderId
  }

  ghost predicate OnePaymentPerOrder(f: Facts) { forall p, q :: SameOrderPaid(f, p, q) ==> p == q }

  ghost predicate FactsOk(f: Facts)
  {
    && (forall o {:trigger OrderOk(f, o)} :: o in f.orders ==> OrderOk(f, o))
    && (forall o {:trigger StockOk(f, o)} :: o in f.stock ==> StockOk(f, o))
    && (forall p {:trigger PaymentOk(f, p)} :: p in f.payments ==> PaymentOk(f, p))
    && (forall o {:trigger GatewayOk(f, o)} :: o in f.gateway ==> GatewayOk(f, o))
    && OnePaymentPerOrder(f)
  }

  /* ---- What the messages, handlers and saga rows rest on ---- */

  predicate Recorded<E(==)>(stream: seq<E>, e: E)
  {
    (|stream| > 0 && stream[0] == e) || (|stream| > 1 && stream[1] == e)
  }

  predicate EventOk(f: Facts, e: Event)
  {
    match e
    case OrderEvt(x) => Recorded(f.OrderAt(x.orderId), x)
    case StockEvt(x) => Recorded(f.StockAt(x.orderId), x)
    case PaymentEvt(x) => Recorded(f.PaymentAt(x.paymentId), x)
  }

  predicate CommandOk(f: Facts, c: Command)
  {
    match c
    case ReserveStock(o, lines) => Placed(f, o) && lines == ReservationLines(ItemsOf(f, o))
    case AuthorizePayment(o, customerId, amountCents) =>
      Reserved(f, o) && customerId == f.OrderAt(o)[0].customerId && amountCents == Total(ItemsOf(f, o))
    case ConfirmOrder(o, paymentId) => paymentId.Some? && Paid(f, o, paymentId.value)
    case CancelOrder(o, reason) => CancelledFor(f, o, reason)
    case _ => true
  }

  predicate SagaOk(f: Facts, sn: SagaSnapshot)
  {
    var o := sn.sagaId;
    && Placed(f, o)
    && sn.context.orderId == o && sn.context.customerId == f.OrderAt(o)[0].customerId
    && sn.context.lines == ReservationLines(ItemsOf(f, o)) && sn.context.amountCents == Total(ItemsOf(f, o))
    && sn.currentStepIndex < 2
    && sn.history == ShippedHistory(sn.currentStepIndex, sn.status)
    && (if sn.currentStepIndex == 0 then sn.context.reservationId == None
        else Reserved(f, o) && sn.context.reservationId == Some(f.StockAt(o)[0].reservationId))
    && (match sn.status
        case IN_PROGRESS => sn.context.paymentId == None
        case COMPLETED =>
          sn.currentStepIndex == 1 && sn.context.paymentId.Some? && Paid(f, o, sn.context.paymentId.value)
        case COMPENSATED =>
          if sn.currentStepIndex == 0 then sn.context.paymentId == None && Unstocked(f, o)
          else sn.context.paymentId.Some? && ChargeRefused(f, o) && Declined(f, o, sn.context.paymentId.value)
        case _ => false)
  }

  predicate ThreadOk(f: Facts, t: Thread)
  {
    match t
    case ConfirmLoaded(o, paymentId, loaded) =>
      loaded != [] && loaded <= f.OrderAt(o) && paymentId.Some? && Paid(f, o, paymentId.value)
    case CancelLoaded(o, reason, loaded) => loaded != [] && loaded <= f.OrderAt(o) && CancelledFor(f, o, reason)
    case ReserveChecked(o, lines) => Placed(f, o) && lines == ReservationLines(ItemsOf(f, o))
    case ReserveRefused(o, shortage) => RefusedFor(f, o, shortage.sku, shortage.reason)
    case ReleaseLoaded(o, loaded) => loaded != [] && loaded <= f.StockAt(o)
    case AuthorizeChecked(o, amountCents, _) => Reserved(f, o) && amountCents == Total(ItemsOf(f, o))
    case AuthorizeAnswered(o, amountCents, _, reply) =>
      Reserved(f, o) && amountCents == Total(ItemsOf(f, o)) && o in f.gateway && f.gateway[o] == reply
    case RefundLoaded(p, loaded) => loaded != [] && loaded <= f.PaymentAt(p)
    case StartChecked(created) => created.OrderCreated? && EventOk(f, OrderEvt(created))
    case StartPublished(sn) => SagaOk(f, sn)
    case OutcomeRead(sn, e) =>
      && SagaOk(f, sn) && sn.status == IN_PROGRESS
      && EventOk(f, e) && OrderOf(e) == sn.sagaId && TypeOf(e) != ORDER_CREATED
    case OutcomePublished(sn) => SagaOk(f, sn)
    case OutcomeSaved(sn) => SagaOk(f, sn)
  }

  /* ---- Evidence is stable ---- */

  lemma ExtendsTransitive(f: Facts, g: Facts, h: Facts)
    requires Extends(f, g) && Extends(g, h)
    ensures Extends(f, h)
  {
    forall o ensures OrderKept(f, h, o) { assert OrderKept(f, g, o) && OrderKept(g, h, o); }
    forall o ensures StockKept(f, h, o) { assert StockKept(f, g, o) && StockKept(g, h, o); }
    forall p ensures PaymentKept(f, h, p) { assert PaymentKept(f, g, p) && PaymentKept(g, h, p); }
    forall o ensures ReplyKept(f, h, o) { assert ReplyKept(f, g, o) && ReplyKept(g, h, o); }
  }

  lemma EvidenceStable(f: Facts, g: Facts, o: OrderId, p: PaymentId)
    requires Extends(f, g)
    ensures Placed(f, o) ==> Placed(g, o) && g.OrderAt(o)[0] == f.OrderAt(o)[0]
    ensures Reserved(f, o) ==> Reserved(g, o) && g.StockAt(o)[0] == f.StockAt(o)[0]
    ensures Paid(f, o, p) ==> Paid(g, o, p)
    ensures Unstocked(f, o) ==> Unstocked(g, o)
    ensures ChargeRefused(f, o) ==> ChargeRefused(g, o)
    ensures Declined(f, o, p) ==> Declined(g, o, p)
  {
    assert OrderKept(f, g, o) && StockKept(f, g, o) && PaymentKept(f, g, p) && ReplyKept(f, g, o);
  }

  lemma RefusalStable(f: Facts, g: Facts, o: OrderId, sku: Sku, why: ShortfallReason)
    requires Extends(f, g) && RefusedFor(f, o, sku, why)
    ensures RefusedFor(g, o, sku, why)
  {
    EvidenceStable(f, g, o, 0);
    assert ItemsOf(g, o) == ItemsOf(f, o);
  }

  lemma EventStable(f: Facts, g: Facts, e: Event)
    requires Extends(f, g) && EventOk(f, e)
    ensures EventOk(g, e)
  {
    match e
    case OrderEvt(x) => assert OrderKept(f, g, x.orderId);
    case StockEvt(x) => assert StockKept(f, g, x.orderId);
    case PaymentEvt(x) => assert PaymentKept(f, g, x.paymentId);
  }

  lemma CommandStable(f: Facts, g: Facts, c: Command)
    requires Extends(f, g) && CommandOk(f, c)
    ensures CommandOk(g, c)
  {
    EvidenceStable(f, g, c.orderId, if c.ConfirmOrder? && c.paymentId.Some? then c.paymentId.value else 0);
  }

  lemma SagaStable(f: Facts, g: Facts, sn: SagaSnapshot)
    requires Extends(f, g) && SagaOk(f, sn)
    ensures SagaOk(g, sn)
  {
    EvidenceStable(f, g, sn.sagaId, if sn.context.paymentId.Some? then sn.context.paymentId.value else 0);
  }

  lemma ThreadStable(f: Facts, g: Facts, t: Thread)
    requires Extends(f, g) && ThreadOk(f, t)
    ensures ThreadOk(g, t)
  {
    match t
    case ConfirmLoaded(o, paymentId, loaded) =>
      EvidenceStable(f, g, o, paymentId.value);
      assert OrderKept(f, g, o);
    case CancelLoaded(o, _, loaded) =>
      EvidenceStable(f, g, o, 0);
      assert OrderKept(f, g, o);
    case ReserveChecked(o, _) => EvidenceStable(f, g, o, 0);
    case ReserveRefused(o, shortage) => RefusalStable(f, g, o, shortage.sku, shortage.reason);
    case ReleaseLoaded(o, loaded) => assert StockKept(f, g, o);
    case AuthorizeChecked(o, _, _) => EvidenceStable(f, g, o, 0);
    case AuthorizeAnswered(o, _, _, _) =>
      EvidenceStable(f, g, o, 0);
      assert ReplyKept(f, g, o);
    case RefundLoaded(p, loaded) => assert PaymentKept(f, g, p);
    case StartChecked(created) => EventStable(f, g, OrderEvt(created));
    case StartPublished(sn) => SagaStable(f, g, sn);
    case OutcomeRead(sn, e) => SagaStable(f, g, sn); EventStable(f, g, e);
    case OutcomePublished(sn) => SagaStable(f, g, sn);
    case OutcomeSaved(sn) => SagaStable(f, g, sn);
  }

  /** Nothing that was fine before is spoilt by more evidence, at every stream that did not itself change. */
  lemma RestStable(f: Facts, g: Facts)
    requires FactsOk(f) && Extends(f, g)
    ensures forall o {:trigger OrderOk(g, o)} :: o in f.orders && g.OrderAt(o) == f.OrderAt(o) ==> OrderOk(g, o)
    ensures forall o {:trigger StockOk(g, o)} :: o in f.stock && g.StockAt(o) == f.StockAt(o) ==> StockOk(g, o)
    ensures forall p {:trigger PaymentOk(g, p)} :: p in f.payments && g.PaymentAt(p) == f.PaymentAt(p) ==>
        PaymentOk(g, p)
    ensures forall o {:trigger GatewayOk(g, o)} :: o in f.gateway ==> GatewayOk(g, o)
    ensures f.payments == g.payments ==> OnePaymentPerOrder(g)
  {
    forall o | o in f.orders && g.OrderAt(o) == f.OrderAt(o) ensures OrderOk(g, o) {
      assert OrderKept(f, g, o);
      var events := f.OrderAt(o);
      assert OrderOk(f, o);
      var paymentId := if |events| == 2 && events[1].OrderConfirmed? then events[1].confirmedPaymentId.value else 0;
      EvidenceStable(f, g, o, paymentId);
    }
    forall o | o in f.stock && g.StockAt(o) == f.StockAt(o) ensures StockOk(g, o) {
      assert StockOk(f, o);
      EvidenceStable(f, g, o, 0);
      if Unstocked(f, o) { RefusalStable(f, g, o, f.StockAt(o)[0].sku, f.StockAt(o)[0].shortfall); }
    }
    forall p | p in f.payments && g.PaymentAt(p) == f.PaymentAt(p) ensures PaymentOk(g, p) {
      assert PaymentOk(f, p) && ReplyKept(f, g, f.PaymentAt(p)[0].orderId);
      EvidenceStable(f, g, f.PaymentAt(p)[0].orderId, p);
    }
    forall o | o in f.gateway ensures GatewayOk(g, o) {
      assert GatewayOk(f, o) && ReplyKept(f, g, o);
      EvidenceStable(f, g, o, 0);
    }
    if f.payments == g.payments {
      forall p, q | SameOrderPaid(g, p, q) ensures p == q { assert SameOrderPaid(f, p, q); }
    }
  }

  /** The two outcomes of an order exclude each other. */
  lemma PaidIsNotDoomed(f: Facts, o: OrderId, p: PaymentId)
    requires FactsOk(f) && Paid(f, o, p)
    ensures !Doomed(f, o) && Reserved(f, o) && o in f.gateway && f.gateway[o].Approved?
  {
    assert PaymentOk(f, p);
    assert GatewayOk(f, o);
  }
}

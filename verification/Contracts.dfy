/** The messages the services exchange. Uuids and SKUs are opaque: only equality on them is used. */
module Contracts {
  import opened Basics

  type OrderId = nat
  type CustomerId = nat
  type Sku = nat
  type PaymentId = nat
  type ReservationId = nat

  datatype OrderLineItem = OrderLineItem(sku: Sku, qty: int, unitPriceCents: int)
  datatype ReservationLine = ReservationLine(sku: Sku, qty: int)

  /** Why a reservation was refused; the source renders the same facts as an English sentence. */
  datatype ShortfallReason = UnknownSku | OnlyAvailable(requested: int, available: int)

  datatype OrderEvent =
    | OrderCreated(orderId: OrderId, customerId: CustomerId, items: seq<OrderLineItem>, totalCents: int)
    | OrderConfirmed(orderId: OrderId, confirmedPaymentId: Option<PaymentId>)
    | OrderCancelled(orderId: OrderId, cancelReason: string)

  datatype StockEvent =
    | InventoryReserved(reservationId: ReservationId, orderId: OrderId, lines: seq<ReservationLine>)
    | InventoryReservationFailed(orderId: OrderId, sku: Sku, shortfall: ShortfallReason)
    | InventoryReleased(releasedReservationId: Option<ReservationId>, orderId: OrderId)

  datatype PaymentEvent =
    | PaymentAuthorized(paymentId: PaymentId, orderId: OrderId, amountCents: int, pspReference: nat)
    | PaymentDeclined(paymentId: PaymentId, orderId: OrderId, declineCode: string, declineReason: string)
    | PaymentRefunded(paymentId: PaymentId, orderId: OrderId, refundedCents: int, refundReason: Option<string>)

  /** What travels on order.events, inventory.events and payment.events. */
  datatype Event =
    | OrderEvt(order: OrderEvent)
    | StockEvt(stock: StockEvent)
    | PaymentEvt(payment: PaymentEvent)

  datatype EventType =
    | ORDER_CREATED | ORDER_CONFIRMED | ORDER_CANCELLED
    | INVENTORY_RESERVED | INVENTORY_RESERVATION_FAILED | INVENTORY_RELEASED
    | PAYMENT_AUTHORIZED | PAYMENT_DECLINED | PAYMENT_REFUNDED

  function TypeOf(e: Event): EventType
  {
    match e
    case OrderEvt(o) => (match o
      case OrderCreated(_, _, _, _) => ORDER_CREATED
      case OrderConfirmed(_, _) => ORDER_CONFIRMED
      case OrderCancelled(_, _) => ORDER_CANCELLED)
    case StockEvt(s) => (match s
      case InventoryReserved(_, _, _) => INVENTORY_RESERVED
      case InventoryReservationFailed(_, _, _) => INVENTORY_RESERVATION_FAILED
      case InventoryReleased(_, _) => INVENTORY_RELEASED)
    case PaymentEvt(p) => (match p
      case PaymentAuthorized(_, _, _, _) => PAYMENT_AUTHORIZED
      case PaymentDeclined(_, _, _, _) => PAYMENT_DECLINED
      case PaymentRefunded(_, _, _, _) => PAYMENT_REFUNDED)
  }

  /** Every event payload carries the order it belongs to. */
  function OrderOf(e: Event): OrderId
  {
    match e
    case OrderEvt(o) => o.orderId
    case StockEvt(s) => s.orderId
    case PaymentEvt(p) => p.orderId
  }

  /** What travels on saga.commands. */
  datatype Command =
    | CreateOrder(orderId: OrderId, customerId: CustomerId, items: seq<OrderLineItem>)
    | ReserveStock(orderId: OrderId, lines: seq<ReservationLine>)
    | ReleaseInventory(orderId: OrderId, reservationId: Option<ReservationId>)
    | AuthorizePayment(orderId: OrderId, customerId: CustomerId, amountCents: int)
    | RefundPayment(orderId: OrderId, refundPaymentId: PaymentId, amountCents: int)
    | ConfirmOrder(orderId: OrderId, paymentId: Option<PaymentId>)
    | CancelOrder(orderId: OrderId, reason: string)

  /** The price of an order: the sum of qty times unit price. */
  function Total(items: seq<OrderLineItem>): int
  {
    if items == [] then 0
    else Total(items[..|items| - 1]) + items[|items| - 1].qty * items[|items| - 1].unitPriceCents
  }

  /** What the order line at each place costs. */
  function LineCosts(items: seq<OrderLineItem>): int -> int
  {
    i => if 0 <= i < |items| then items[i].qty * items[i].unitPriceCents else 0
  }

  /** The price of an order, line by line. */
  ghost function Price(items: seq<OrderLineItem>): int { Sum(UpTo(|items|), LineCosts(items)) }

  /** Accumulating over the items gives the sum over all lines of quantity times unit price. */
  lemma {:induction false} TotalIsPrice(items: seq<OrderLineItem>)
    ensures Total(items) == Price(items)
    decreases |items|
  {
    if items != [] {
      var n := |items| - 1;
      TotalIsPrice(items[..n]);
      SumUpdate(UpTo(n), LineCosts(items[..n]), LineCosts(items), n);
      assert UpTo(n) + {n} == UpTo(|items|);
    }
  }

  /** The sku and quantity of every order line, in order. */
  function ReservationLines(items: seq<OrderLineItem>): seq<ReservationLine>
  {
    seq(|items|, i requires 0 <= i < |items| => ReservationLine(items[i].sku, items[i].qty))
  }

  /** How much of one SKU a list of lines asks for. */
  function Demand(lines: seq<ReservationLine>, sku: Sku): int
  {
    if lines == [] then 0
    else
      var last := lines[|lines| - 1];
      Demand(lines[..|lines| - 1], sku) + (if last.sku == sku then last.qty else 0)
  }
}

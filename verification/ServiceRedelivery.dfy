/** The three services absorb redelivery: their handlers meet what Redelivery asks of a handler. */
module ServiceRedelivery {
  import opened Basics
  import opened Contracts
  import opened Persistence
  import opened Redelivery
  import OD = OrderDomain
  import SD = StockDomain
  import PD = PaymentDomain
  import opened OrderService
  import opened InventoryService
  import opened PaymentService

  function AsOption<A, E>(r: Result<A, E>): Option<A> { if r.Ok? then Some(r.value) else None }

  predicate AnyStore<S>(s: S) { true }

  /* ---- order-service ---- */

  /** Commands of other services share the topic and are ignored. */
  function OrderHandle(t: OrderTables, c: Command, n: ()): Option<OrderTables>
  {
    match c
    case CreateOrder(orderId, customerId, items) => Some(HandleCreate(t, orderId, customerId, items))
    case ConfirmOrder(orderId, paymentId) => AsOption(HandleConfirm(t, orderId, paymentId))
    case CancelOrder(orderId, reason) => AsOption(HandleCancel(t, orderId, reason))
    case _ => Some(t)
  }

  function OrderMidway(t: OrderTables, c: Command, n: ()): OrderTables { t }

  predicate OrderHandled(t: OrderTables, c: Command)
  {
    match c
    case CreateOrder(orderId, _, _) => t.Stream(orderId) != []
    case ConfirmOrder(orderId, _) => t.Stream(orderId) != [] && OD.Replay(t.Stream(orderId)).status != OD.CREATED
    case CancelOrder(orderId, _) =>
      t.Stream(orderId) != [] && OD.Replay(t.Stream(orderId)).status in {OD.CONFIRMED, OD.CANCELLED}
    case _ => true
  }

  /** A command handled is done with, and skipped if it was done with before. */
  lemma OrderEffect(t: OrderTables, c: Command)
    requires OrderHandle(t, c, ()).Some?
    ensures OrderHandled(OrderHandle(t, c, ()).value, c)
    ensures OrderHandled(t, c) ==> OrderHandle(t, c, ()) == Some(t)
  {
    if c.ConfirmOrder? {
      FoldSnoc(OD.When, OD.BLANK_STATE, t.Stream(c.orderId), OrderConfirmed(c.orderId, c.paymentId));
    } else if c.CancelOrder? {
      FoldSnoc(OD.When, OD.BLANK_STATE, t.Stream(c.orderId), OrderCancelled(c.orderId, c.reason));
    }
  }

  /** What the handlers do to a stream that is there already. */
  lemma OrderStreamAfter(t: OrderTables, c: Command, o: OrderId)
    requires OrderHandle(t, c, ()).Some? && t.Stream(o) != []
    ensures
      var before, after := t.Stream(o), OrderHandle(t, c, ()).value.Stream(o);
      || after == before
      || (OD.Replay(before).status !in {OD.CONFIRMED, OD.CANCELLED}
          && OD.Replay(after).status in {OD.CONFIRMED, OD.CANCELLED} && after != [])
  {
    if c.ConfirmOrder? {
      FoldSnoc(OD.When, OD.BLANK_STATE, t.Stream(c.orderId), OrderConfirmed(c.orderId, c.paymentId));
    } else if c.CancelOrder? {
      FoldSnoc(OD.When, OD.BLANK_STATE, t.Stream(c.orderId), OrderCancelled(c.orderId, c.reason));
    }
  }

  lemma OrderStaysHandled(t: OrderTables, c: Command, d: Command)
    requires OrderHandle(t, c, ()).Some? && OrderHandled(t, d)
    ensures OrderHandled(OrderHandle(t, c, ()).value, d)
  {
    hide OrderHandle;
    if d.CreateOrder? || d.ConfirmOrder? || d.CancelOrder? { OrderStreamAfter(t, c, d.orderId); }
  }

  lemma OrderAttemptsAgain(t: OrderTables, c: Command)
    requires OrderHandled(t, c)
    ensures OrderHandle(t, c, ()) == Some(t)
  {
  }

  lemma OrderServiceIsIdempotent()
    ensures Idempotent(OrderHandle, OrderMidway, OrderHandled, AnyStore)
    ensures Resumable(OrderHandle, OrderMidway, (m: (), n: ()) => n)
  {
    forall t, c, n | OrderHandle(t, c, n).Some?
      ensures OrderHandled(OrderHandle(t, c, n).value, c)
    {
      OrderEffect(t, c);
    }
    forall t, c, d, n | OrderHandled(t, d) && OrderHandle(t, c, n).Some?
      ensures OrderHandled(OrderHandle(t, c, n).value, d)
    {
      OrderStaysHandled(t, c, d);
    }
    forall t, c, n | OrderHandled(t, c)
      ensures OrderHandle(t, c, n) == Some(t)
    {
      OrderAttemptsAgain(t, c);
    }
  }

  /** order-service, any log, any replays and crashes: once caught up, as if each command ran once in order. */
  lemma OrderServiceAbsorbsReplays(log: seq<Command>, init: OrderTables, steps: seq<Step<()>>)
    requires ConsumeAll(OrderHandle, OrderMidway, log, init, steps).position == |log|
    ensures exists inputs: seq<()> ::
              && |inputs| == |log|
              && Once(OrderHandle, log, init, inputs) ==
                 Some(ConsumeAll(OrderHandle, OrderMidway, log, init, steps).store)
  {
    OrderServiceIsIdempotent();
    CaughtUpMeansOnce(OrderHandle, OrderMidway, OrderHandled, AnyStore, (m: (), n: ()) => n, log, init, steps);
  }

  /* ---- inventory-service ---- */

  /** The input is the reservation id an attempt mints. */
  function InventoryHandle(db: Inventory, c: Command, reservationId: ReservationId): Option<Inventory>
  {
    match c
    case ReserveStock(orderId, lines) => AsOption(HandleReserve(db, orderId, lines, reservationId))
    case ReleaseInventory(orderId, _) => AsOption(HandleRelease(db, orderId))
    case _ => Some(db)
  }

  /** Between the rolled-back reservation and the failure transaction nothing is stored. */
  function InventoryMidway(db: Inventory, c: Command, reservationId: ReservationId): Inventory { db }

  predicate InventoryHandled(db: Inventory, c: Command)
  {
    match c
    case ReserveStock(orderId, _) => orderId in db.tables.rows
    case ReleaseInventory(orderId, _) =>
      db.tables.Stream(orderId) != [] && SD.Replay(db.tables.Stream(orderId)).status != SD.RESERVED
    case _ => true
  }

  lemma InventoryEffect(db: Inventory, c: Command, d: Command, n: ReservationId)
    requires InventoryHandle(db, c, n).Some?
    ensures
      var after := InventoryHandle(db, c, n).value;
      && InventoryHandled(after, c)
      && (InventoryHandled(db, d) ==> InventoryHandled(after, d))
  {
    if c.ReleaseInventory? {
      var stream := db.tables.Stream(c.orderId);
      FoldSnoc(SD.When, SD.BLANK_STATE, stream, InventoryReleased(SD.Replay(stream).reservationId, c.orderId));
    }
  }

  lemma InventoryServiceIsIdempotent()
    ensures Idempotent(InventoryHandle, InventoryMidway, InventoryHandled, AnyStore)
    ensures Resumable(InventoryHandle, InventoryMidway, (m: ReservationId, n: ReservationId) => n)
  {
    forall db, c, n | InventoryHandle(db, c, n).Some?
      ensures InventoryHandled(InventoryHandle(db, c, n).value, c)
    {
      InventoryEffect(db, c, c, n);
    }
    forall db, c, d, n | InventoryHandled(db, d) && InventoryHandle(db, c, n).Some?
      ensures InventoryHandled(InventoryHandle(db, c, n).value, d)
    {
      InventoryEffect(db, c, d, n);
    }
  }

  /** inventory-service, stock counters included: up to the reservation ids minted, as if each command ran once. */
  lemma InventoryServiceAbsorbsReplays(log: seq<Command>, init: Inventory, steps: seq<Step<ReservationId>>)
    requires ConsumeAll(InventoryHandle, InventoryMidway, log, init, steps).position == |log|
    ensures exists inputs: seq<ReservationId> ::
              && |inputs| == |log|
              && Once(InventoryHandle, log, init, inputs) ==
                 Some(ConsumeAll(InventoryHandle, InventoryMidway, log, init, steps).store)
  {
    InventoryServiceIsIdempotent();
    CaughtUpMeansOnce(InventoryHandle, InventoryMidway, InventoryHandled, AnyStore,
        (m: ReservationId, n: ReservationId) => n, log, init, steps);
  }

  /* ---- payment-service ---- */

  /** The input is the payment id an attempt mints and what the gateway would decide. */
  datatype Attempt = Attempt(paymentId: PaymentId, decision: Decision)

  function PaymentHandle(db: Payments, c: Command, a: Attempt): Option<Payments>
  {
    match c
    case AuthorizePayment(orderId, _, amountCents) =>
      var handled := HandleAuthorize(db, orderId, amountCents, a.paymentId, a.decision);
      if handled.1 then Some(handled.0) else None
    case RefundPayment(_, paymentId, _) =>
      var handled := HandleRefund(db.tables, paymentId);
      if handled.Ok? then Some(db.(tables := handled.value)) else None
    case _ => Some(db)
  }

  /** A crash after the gateway answered, or a save that conflicted, leaves the answer at the gateway. */
  function PaymentMidway(db: Payments, c: Command, a: Attempt): Payments
  {
    match c
    case AuthorizePayment(orderId, _, amountCents) =>
      if HasPayment(db.tables, orderId) then db
      else db.(gateway := db.gateway[orderId := ReplyFor(db.gateway, orderId, amountCents, a.decision)])
    case _ => db
  }

  /** A refund is done once the payment is no longer AUTHORIZED but was once charged. */
  predicate PaymentHandled(db: Payments, c: Command)
  {
    match c
    case AuthorizePayment(orderId, _, _) => HasPayment(db.tables, orderId)
    case RefundPayment(_, paymentId, _) =>
      var state := PD.Replay(db.tables.Stream(paymentId));
      db.tables.Stream(paymentId) != [] && state.status != PD.AUTHORIZED && state.pspReference.Some?
    case _ => true
  }

  /** Every projection row has its stream and names its order, as in every store the service can reach. */
  ghost predicate RowsMatchStreams(db: Payments)
  {
    forall id :: id in db.tables.rows ==>
      db.tables.Stream(id) != [] && db.tables.rows[id].state.orderId == PD.Replay(db.tables.Stream(id)).orderId
  }

  /** The gateway's first answer is the one that counts; the payment id is the later attempt's. */
  function Resume(m: Attempt, n: Attempt): Attempt { Attempt(n.paymentId, m.decision) }

  lemma AuthorizeEffect(db: Payments, c: Command, d: Command, a: Attempt)
    requires RowsMatchStreams(db) && c.AuthorizePayment? && PaymentHandle(db, c, a).Some?
    ensures
      var after := PaymentHandle(db, c, a).value;
      && RowsMatchStreams(after) && PaymentHandled(after, c)
      && (PaymentHandled(db, d) ==> PaymentHandled(after, d))
  {
    if !HasPayment(db.tables, c.orderId) {
      var after := PaymentHandle(db, c, a).value;
      var reply := ReplyFor(db.gateway, c.orderId, c.amountCents, a.decision);
      var e := PaymentOutcome(a.paymentId, c.orderId, c.amountCents, reply);
      assert [] + [e] == [e];
      FoldSnoc(PD.When, PD.BLANK_STATE, [], e);
      assert after.tables.rows[a.paymentId].state.orderId == c.orderId;
      assert a.paymentId !in db.tables.rows;
      if d.AuthorizePayment? && HasPayment(db.tables, d.orderId) {
        var id :| id in db.tables.rows && db.tables.rows[id].state.orderId == d.orderId;
        assert after.tables.rows[id] == db.tables.rows[id];
      }
    }
  }

  /** What a refund that goes through records. */
  lemma RefundRecords(db: Payments, c: Command, a: Attempt)
    requires c.RefundPayment? && PaymentHandle(db, c, a).Some? && PaymentHandle(db, c, a) != Some(db)
    ensures
      var p, after := c.refundPaymentId, PaymentHandle(db, c, a).value.tables;
      var before, state := PD.Replay(db.tables.Stream(p)), PD.Replay(after.Stream(p));
      && db.tables.Stream(p) != [] && after.Stream(p) != []
      && state.status == PD.REFUNDED && state.orderId == before.orderId && state.pspReference == before.pspReference
      && after.rows == db.tables.rows[p := after.rows[p]] && after.rows[p].state == state
      && (forall id :: id != p ==> after.Stream(id) == db.tables.Stream(id))
      && before.pspReference.Some? && PaymentHandle(db, c, a).value.gateway == db.gateway
  {
    var p := c.refundPaymentId;
    var loaded := db.tables.Stream(p);
    var e := PD.Refunding(p, PD.Replay(loaded), REFUND_REASON).value;
    FoldSnoc(PD.When, PD.BLANK_STATE, loaded, e);
  }

  lemma RefundEffect(db: Payments, c: Command, d: Command, a: Attempt)
    requires RowsMatchStreams(db) && c.RefundPayment? && PaymentHandle(db, c, a).Some?
    ensures
      var after := PaymentHandle(db, c, a).value;
      && RowsMatchStreams(after) && PaymentHandled(after, c)
      && (PaymentHandled(db, d) ==> PaymentHandled(after, d))
  {
    var after := PaymentHandle(db, c, a).value;
    if after != db {
      RefundRecords(db, c, a);
      if d.AuthorizePayment? && HasPayment(db.tables, d.orderId) {
        var id :| id in db.tables.rows && db.tables.rows[id].state.orderId == d.orderId;
        assert id in after.tables.rows && after.tables.rows[id].state.orderId == d.orderId;
      }
    }
  }

  lemma PaymentEffect(db: Payments, c: Command, d: Command, a: Attempt)
    requires RowsMatchStreams(db) && PaymentHandle(db, c, a).Some?
    ensures
      var after := PaymentHandle(db, c, a).value;
      && RowsMatchStreams(after) && PaymentHandled(after, c)
      && (PaymentHandled(db, d) ==> PaymentHandled(after, d))
  {
    if c.AuthorizePayment? { AuthorizeEffect(db, c, d, a); }
    if c.RefundPayment? { RefundEffect(db, c, d, a); }
  }

  /** An attempt after a broken-off one gets the gateway's recorded answer, so it does what a single attempt
      with the first decision and the second id would have done. */
  lemma GatewayReplays(db: Payments, c: Command, m: Attempt, n: Attempt)
    ensures PaymentHandle(PaymentMidway(db, c, m), c, n) == PaymentHandle(db, c, Resume(m, n))
  {
    if c.AuthorizePayment? && !HasPayment(db.tables, c.orderId) {
      var reply := ReplyFor(db.gateway, c.orderId, c.amountCents, m.decision);
      assert db.gateway[c.orderId := reply][c.orderId := reply] == db.gateway[c.orderId := reply];
    }
  }

  lemma PaymentServiceIsIdempotent()
    ensures Idempotent(PaymentHandle, PaymentMidway, PaymentHandled, RowsMatchStreams)
    ensures Resumable(PaymentHandle, PaymentMidway, Resume)
  {
    forall db, c, n | RowsMatchStreams(db) && PaymentHandle(db, c, n).Some?
      ensures RowsMatchStreams(PaymentHandle(db, c, n).value) && PaymentHandled(PaymentHandle(db, c, n).value, c)
    {
      PaymentEffect(db, c, c, n);
    }
    forall db, c, d, n | RowsMatchStreams(db) && PaymentHandled(db, d) && PaymentHandle(db, c, n).Some?
      ensures PaymentHandled(PaymentHandle(db, c, n).value, d)
    {
      PaymentEffect(db, c, d, n);
    }
    forall db, c, m, n
      ensures PaymentHandle(PaymentMidway(db, c, m), c, n) == PaymentHandle(db, c, Resume(m, n))
    {
      GatewayReplays(db, c, m, n);
    }
    assert forall db, c, m, n :: PaymentMidway(PaymentMidway(db, c, m), c, n) == PaymentMidway(db, c, m);
  }

  /** payment-service with its gateway: up to minted ids and gateway decisions, as if each command ran once. */
  lemma PaymentServiceAbsorbsReplays(log: seq<Command>, init: Payments, steps: seq<Step<Attempt>>)
    requires RowsMatchStreams(init) && ConsumeAll(PaymentHandle, PaymentMidway, log, init, steps).position == |log|
    ensures exists inputs: seq<Attempt> ::
              && |inputs| == |log|
              && Once(PaymentHandle, log, init, inputs) ==
                 Some(ConsumeAll(PaymentHandle, PaymentMidway, log, init, steps).store)
  {
    PaymentServiceIsIdempotent();
    CaughtUpMeansOnce(PaymentHandle, PaymentMidway, PaymentHandled, RowsMatchStreams, Resume, log, init, steps);
  }
}

/** What holds in every reachable state of the composed system: messages duplicated, delayed and reordered,
    handlers of any number of replicas interleaved between their steps and dropped at any of them. */
module CheckoutTheorems {
  import opened Basics
  import opened Contracts
  import opened Persistence
  import opened StockLedger
  import opened OrderFulfillment
  import opened OrderService
  import opened InventoryService
  import opened PaymentService
  import opened Checkout
  import opened CheckoutFacts
  import opened CheckoutInvariant
  import OD = OrderDomain
  import SD = StockDomain
  import PD = PaymentDomain

  function OrderStatusOf(s: State, o: OrderId): OD.OrderStatus
  {
    if o in s.orders.rows then s.orders.rows[o].state.status else OD.UNINITIALIZED
  }

  /** The gateway charged the order's idempotency key. */
  predicate Charged(s: State, o: OrderId) { o in s.payments.gateway && s.payments.gateway[o].Approved? }

  predicate AuthorizedFor(s: State, o: OrderId, p: PaymentId)
  {
    exists k ::
      && 0 <= k < |s.payments.tables.Stream(p)|
      && s.payments.tables.Stream(p)[k].PaymentAuthorized?
      && s.payments.tables.Stream(p)[k].orderId == o
  }

  /** The order's stream behind its projected status. */
  lemma StatusIsStream(s: State, o: OrderId)
    requires Inv(s) && o in s.orders.rows
    ensures OrderOk(FactsOf(s), o)
    ensures s.orders.rows[o] == Projection(OD.Replay(s.orders.Stream(o)), |s.orders.Stream(o)|)
    ensures OrderStatusOf(s, o) == (if |s.orders.Stream(o)| == 1 then OD.CREATED
                                    else if s.orders.Stream(o)[1].OrderConfirmed? then OD.CONFIRMED else OD.CANCELLED)
  {
    assert OrderOk(FactsOf(s), o);
    OD.ReplayOfStream(o, s.orders.Stream(o));
  }

  /** No PAYMENT_AUTHORIZED event exists for the order in any payment stream, and the gateway never charged it. */
  ghost predicate NeverCharged(s: State, o: OrderId)
  {
    !Charged(s, o) && forall p :: !AuthorizedFor(s, o, p)
  }

  lemma DoomedIsUncharged(s: State, o: OrderId)
    requires FactsOk(FactsOf(s)) && Doomed(FactsOf(s), o)
    ensures NeverCharged(s, o)
  {
    var f := FactsOf(s);
    if o in f.gateway { assert GatewayOk(f, o); }
    forall p ensures !AuthorizedFor(s, o, p) {
      if AuthorizedFor(s, o, p) {
        assert PaymentOk(f, p);
        PaidIsNotDoomed(f, o, p);
      }
    }
  }

  lemma CancelledIsDoomed(s: State, o: OrderId)
    requires Inv(s) && OrderStatusOf(s, o) == OD.CANCELLED
    ensures NeverCharged(s, o) && |s.orders.Stream(o)| == 2 && s.orders.Stream(o)[1].OrderCancelled?
  {
    StatusIsStream(s, o);
    DoomedIsUncharged(s, o);
  }

  /** Cancelled implies never charged: in every reachable state an order that is CANCELLED has no
      PAYMENT_AUTHORIZED event in any payment stream, and the gateway has not charged its idempotency key. */
  lemma CancelledIsNeverCharged(levels: Levels, actions: seq<Action>, o: OrderId)
    requires OrderStatusOf(Exec(Init(levels), actions), o) == OD.CANCELLED
    ensures NeverCharged(Exec(Init(levels), actions), o)
  {
    ReachableIsOk(levels, actions);
    CancelledIsDoomed(Exec(Init(levels), actions), o);
  }

  /** What a cancellation gives as its reason: the step that failed, whichever it was. */
  ghost predicate BlamesStep(s: State, o: OrderId, reason: string)
  {
    var reservation := s.inventory.tables.Head(o);
    && reservation.Some?
    && if reservation.value.InventoryReservationFailed? then
         reason == "Saga failed at step \"RESERVE_INVENTORY\""
       else
         && o in s.payments.gateway && s.payments.gateway[o].Refused?
         && reason == "Saga failed at step \"AUTHORIZE_PAYMENT\""
  }

  lemma ReasonBlamesStep(s: State, o: OrderId, reason: string)
    requires FactsOk(FactsOf(s)) && CancelledFor(FactsOf(s), o, reason)
    ensures BlamesStep(s, o, reason)
  {
    var f := FactsOf(s);
    if ChargeRefused(f, o) { assert GatewayOk(f, o); }
  }

  /** Reasons are true: in every reachable state a published CancelOrder, a stored ORDER_CANCELLED and the order's
      projection row name the step that failed for that order. */
  lemma CancellationsNameTheirReason(levels: Levels, actions: seq<Action>, o: OrderId)
    ensures
      var s := Exec(Init(levels), actions);
      && (forall reason :: CancelOrder(o, reason) in s.commands ==> BlamesStep(s, o, reason))
      && (OrderStatusOf(s, o) == OD.CANCELLED ==>
            && |s.orders.Stream(o)| == 2 && s.orders.Stream(o)[1].OrderCancelled?
            && s.orders.rows[o].state.cancelReason == Some(s.orders.Stream(o)[1].cancelReason)
            && BlamesStep(s, o, s.orders.Stream(o)[1].cancelReason))
  {
    ReachableIsOk(levels, actions);
    hide Exec, BlamesStep;
    var s := Exec(Init(levels), actions);
    forall reason | CancelOrder(o, reason) in s.commands ensures BlamesStep(s, o, reason) {
      assert CommandOk(FactsOf(s), CancelOrder(o, reason));
      ReasonBlamesStep(s, o, reason);
    }
    if OrderStatusOf(s, o) == OD.CANCELLED {
      StatusIsStream(s, o);
      OD.ReplayOfStream(o, s.orders.Stream(o));
      ReasonBlamesStep(s, o, s.orders.Stream(o)[1].cancelReason);
    }
  }

  /** A cancellation recorded, or under way, was asked for on the topic with the same reason. */
  predicate CancelTraced(s: State, o: OrderId)
  {
    && (forall t :: t in s.threads && t.CancelLoaded? && t.orderId == o ==>
          CancelOrder(o, t.cancelReason) in s.commands)
    && (forall k :: 0 <= k < |s.orders.Stream(o)| && s.orders.Stream(o)[k].OrderCancelled? ==>
          CancelOrder(o, s.orders.Stream(o)[k].cancelReason) in s.commands)
  }

  predicate Finishing(t: Thread) { t.ConfirmLoaded? || t.CancelLoaded? }

  lemma CommandsStay(s: State, a: Action)
    ensures s.commands <= Do(s, a).commands
  {
  }

  lemma OnlyFinishingMovesOrders(s: State, t: Thread, m: Mint)
    requires !Finishing(t)
    ensures Do(s, Continue(t, m)).orders == s.orders
  {
  }

  /** What the last step of ConfirmOrder and CancelOrder may add, and where. */
  lemma FinishingAppends(s: State, t: Thread, m: Mint, o: OrderId)
    requires Finishing(t)
    ensures
      var before, after := s.orders.Stream(o), Do(s, Continue(t, m)).orders.Stream(o);
      || after == before
      || (t.orderId == o && t in s.threads && t.ConfirmLoaded?
          && after == before + [OrderConfirmed(o, t.confirmedPaymentId)])
      || (t.orderId == o && t in s.threads && t.CancelLoaded? && after == before + [OrderCancelled(o, t.cancelReason)])
  {
  }

  lemma CreatingCancelsNothing(s: State, c: Command, m: Mint, o: OrderId, k: nat)
    requires c.CreateOrder? && k < |Do(s, Receive(c, m)).orders.Stream(o)|
    requires Do(s, Receive(c, m)).orders.Stream(o)[k].OrderCancelled?
    ensures k < |s.orders.Stream(o)| && Do(s, Receive(c, m)).orders.Stream(o)[k] == s.orders.Stream(o)[k]
  {
    OrderService.CreateEffect(s.orders, c.orderId, c.customerId, c.items);
    hide HandleCreate;
  }

  lemma OthersLeaveOrders(s: State, a: Action)
    requires !a.Continue? && !(a.Receive? && a.command.CreateOrder?)
    ensures Do(s, a).orders == s.orders
  {
  }

  lemma NewCancelThread(s: State, a: Action, t: Thread)
    requires t in Do(s, a).threads && t !in s.threads && t.CancelLoaded?
    ensures CancelOrder(t.orderId, t.cancelReason) in s.commands
  {
    assert a.Receive? && a.command in s.commands && a.command.CancelOrder?;
  }

  /** A cancellation that is new is that of a handler at its last step. */
  lemma NewCancellation(s: State, a: Action, o: OrderId, k: nat)
    requires k < |Do(s, a).orders.Stream(o)| && Do(s, a).orders.Stream(o)[k].OrderCancelled?
    requires k < |s.orders.Stream(o)| ==> Do(s, a).orders.Stream(o)[k] != s.orders.Stream(o)[k]
    ensures a.Continue? && a.thread in s.threads && a.thread.CancelLoaded? && a.thread.orderId == o
    ensures a.thread.cancelReason == Do(s, a).orders.Stream(o)[k].cancelReason
  {
    hide Do;
    if a.Continue? && Finishing(a.thread) { FinishingAppends(s, a.thread, a.mint, o); }
    else if a.Continue? { OnlyFinishingMovesOrders(s, a.thread, a.mint); }
    else if a.Receive? && a.command.CreateOrder? { CreatingCancelsNothing(s, a.command, a.mint, o, k); }
    else { OthersLeaveOrders(s, a); }
  }

  lemma DoTracesCancellations(s: State, a: Action, o: OrderId)
    requires CancelTraced(s, o)
    ensures CancelTraced(Do(s, a), o)
  {
    hide Do;
    var after := Do(s, a);
    CommandsStay(s, a);
    forall t | t in after.threads && t.CancelLoaded? && t.orderId == o
      ensures CancelOrder(o, t.cancelReason) in after.commands
    {
      if t !in s.threads { NewCancelThread(s, a, t); }
    }
    forall k | 0 <= k < |after.orders.Stream(o)| && after.orders.Stream(o)[k].OrderCancelled?
      ensures CancelOrder(o, after.orders.Stream(o)[k].cancelReason) in after.commands
    {
      if !(k < |s.orders.Stream(o)| && after.orders.Stream(o)[k] == s.orders.Stream(o)[k]) {
        NewCancellation(s, a, o, k);
      }
    }
  }

  /** Every ORDER_CANCELLED in every reachable state carries the reason of a CancelOrder published for that order. */
  lemma {:induction false} CancellationsAreAskedFor(levels: Levels, actions: seq<Action>, o: OrderId)
    ensures CancelTraced(Exec(Init(levels), actions), o)
    decreases |actions|
  {
    if actions != [] {
      CancellationsAreAskedFor(levels, actions[..|actions| - 1], o);
      DoTracesCancellations(Exec(Init(levels), actions[..|actions| - 1]), actions[|actions| - 1], o);
    }
  }

  /** Every PAYMENT_DECLINED in every reachable state carries the code and the reason the gateway recorded for that
      order, or a stand-in for what it did not give. */
  lemma DeclinesCarryTheAnswer(levels: Levels, actions: seq<Action>, p: PaymentId)
    requires
      var declined := Exec(Init(levels), actions).payments.tables.Head(p);
      declined.Some? && declined.value.PaymentDeclined?
    ensures
      var s := Exec(Init(levels), actions);
      var declined := s.payments.tables.Head(p).value;
      declined.orderId in s.payments.gateway &&
      match s.payments.gateway[declined.orderId]
      case Approved(_, _) => false
      case Refused(code, reason) =>
        && declined.declineCode == (if code.Some? then code.value else "unknown")
        && declined.declineReason == (if reason.Some? then reason.value else "Payment declined")
  {
    ReachableIsOk(levels, actions);
    assert PaymentOk(FactsOf(Exec(Init(levels), actions)), p);
  }

  /** Every INVENTORY_RESERVATION_FAILED in every reachable state names a line of its order, with the quantity that line
      asks for and a lower quantity as what was left. */
  lemma RefusalsNameALine(levels: Levels, actions: seq<Action>, o: OrderId)
    requires
      var failed := Exec(Init(levels), actions).inventory.tables.Head(o);
      failed.Some? && failed.value.InventoryReservationFailed?
    ensures
      var s := Exec(Init(levels), actions);
      var failed := s.inventory.tables.Head(o).value;
      && o in s.orders.rows
      && exists i :: 0 <= i < |s.orders.rows[o].state.items| && s.orders.rows[o].state.items[i].sku == failed.sku
           && (failed.shortfall.OnlyAvailable? ==>
                 && failed.shortfall.requested == s.orders.rows[o].state.items[i].qty
                 && failed.shortfall.available < failed.shortfall.requested)
  {
    ReachableIsOk(levels, actions);
    var s := Exec(Init(levels), actions);
    hide Exec;
    assert StockOk(FactsOf(s), o) && OrderOk(FactsOf(s), o);
    OD.ReplayOfStream(o, s.orders.Stream(o));
    var failed, items := s.inventory.tables.Head(o).value, s.orders.rows[o].state.items;
    var i :| 0 <= i < |items| && RefusedLine(items[i], failed.sku, failed.shortfall);
    assert items[i].sku == failed.sku;
  }

  lemma FinalStatusStays(s: State, t: State, o: OrderId)
    requires Inv(s) && Inv(t) && OrderKept(FactsOf(s), FactsOf(t), o)
    requires OrderStatusOf(s, o) == OD.CONFIRMED || OrderStatusOf(s, o) == OD.CANCELLED
    ensures OrderStatusOf(t, o) == OrderStatusOf(s, o)
  {
    StatusIsStream(s, o);
    StatusIsStream(t, o);
  }

  /** Nor will it be: whatever happens after the cancellation, the order stays cancelled and uncharged. */
  lemma CancelledStaysUncharged(levels: Levels, actions: seq<Action>, later: seq<Action>, o: OrderId)
    requires OrderStatusOf(Exec(Init(levels), actions), o) == OD.CANCELLED
    ensures
      var t := Exec(Exec(Init(levels), actions), later);
      OrderStatusOf(t, o) == OD.CANCELLED && NeverCharged(t, o)
  {
    var s := Exec(Init(levels), actions);
    ReachableIsOk(levels, actions);
    EvidenceOnlyGrows(s, later);
    FinalStatusStays(s, Exec(s, later), o);
    CancelledIsDoomed(Exec(s, later), o);
  }

  /** The reservation stream starts with INVENTORY_RESERVED for exactly the order's lines, SKU by SKU and quantity by
      quantity, and the confirming payment's stream with PAYMENT_AUTHORIZED for that order over the sum of quantity
      times unit price, which is also what the gateway charged. */
  ghost predicate ReservedAndPaid(s: State, o: OrderId, order: OD.OrderState)
  {
    && (match s.inventory.tables.Head(o)
        case Some(InventoryReserved(_, orderId, lines)) =>
          && orderId == o && |lines| == |order.items|
          && forall i :: 0 <= i < |order.items| ==>
               lines[i].sku == order.items[i].sku && lines[i].qty == order.items[i].qty
        case _ => false)
    && order.paymentId.Some?
    && (match s.payments.tables.Head(order.paymentId.value)
        case Some(PaymentAuthorized(_, orderId, amountCents, pspReference)) =>
          && orderId == o && amountCents == Sum(UpTo(|order.items|), LineCosts(order.items))
          && o in s.payments.gateway && s.payments.gateway[o] == Approved(amountCents, pspReference)
        case _ => false)
  }

  lemma ConfirmedIsBacked(s: State, o: OrderId)
    requires Inv(s) && OrderStatusOf(s, o) == OD.CONFIRMED
    ensures ReservedAndPaid(s, o, s.orders.rows[o].state)
  {
    var f, events := FactsOf(s), s.orders.Stream(o);
    StatusIsStream(s, o);
    OD.ReplayOfStream(o, events);
    TotalIsPrice(events[0].items);
    var p := events[1].confirmedPaymentId.value;
    PaidIsNotDoomed(f, o, p);
    assert PaymentOk(f, p) && StockOk(f, o);
  }

  /** Confirmed implies reserved and paid, in every reachable state. */
  lemma ConfirmedIsReservedAndPaid(levels: Levels, actions: seq<Action>, o: OrderId)
    requires OrderStatusOf(Exec(Init(levels), actions), o) == OD.CONFIRMED
    ensures
      var s := Exec(Init(levels), actions);
      ReservedAndPaid(s, o, s.orders.rows[o].state)
  {
    ReachableIsOk(levels, actions);
    ConfirmedIsBacked(Exec(Init(levels), actions), o);
  }

  lemma OneReservationOutcome(f: Facts, o: OrderId, k: nat)
    requires FactsOk(f) && 0 < k < |f.StockAt(o)|
    ensures f.StockAt(o)[k].InventoryReleased?
  {
    assert StockOk(f, o);
  }

  lemma OnePaymentOutcome(f: Facts, p: PaymentId, k: nat)
    requires FactsOk(f) && 0 < k < |f.PaymentAt(p)|
    ensures f.PaymentAt(p)[k].PaymentRefunded?
  {
    assert PaymentOk(f, p);
  }

  lemma OnePayment(s: State, p: PaymentId, q: PaymentId)
    requires Inv(s) && p in s.payments.tables.rows && q in s.payments.tables.rows
    requires SameOrder(s.payments.tables.rows[p].state, s.payments.tables.rows[q].state)
    ensures p == q
  {
    var f := FactsOf(s);
    assert PaymentOk(f, p) && PaymentOk(f, q);
    PD.ReplayOfStream(p, f.PaymentAt(p));
    PD.ReplayOfStream(q, f.PaymentAt(q));
    assert SameOrderPaid(f, p, q);
  }

  lemma OneEnding(s: State, o: OrderId, paymentId: Option<PaymentId>, reason: string)
    requires Inv(s)
    ensures ConfirmOrder(o, paymentId) !in s.commands || CancelOrder(o, reason) !in s.commands
  {
    if ConfirmOrder(o, paymentId) in s.commands && CancelOrder(o, reason) in s.commands {
      assert CommandOk(FactsOf(s), ConfirmOrder(o, paymentId)) && CommandOk(FactsOf(s), CancelOrder(o, reason));
      PaidIsNotDoomed(FactsOf(s), o, paymentId.value);
    }
  }

  /** Outcome exclusivity: per order at most one reservation outcome and at most one payment, authorised or
      declined but not both, are ever recorded; and ConfirmOrder and CancelOrder are never both published. */
  lemma OutcomesExclude(levels: Levels, actions: seq<Action>)
    ensures
      var s := Exec(Init(levels), actions);
      && (forall o, k :: 0 < k < |s.inventory.tables.Stream(o)| ==> s.inventory.tables.Stream(o)[k].InventoryReleased?)
      && (forall p, k :: 0 < k < |s.payments.tables.Stream(p)| ==> s.payments.tables.Stream(p)[k].PaymentRefunded?)
      && (forall p, q :: p in s.payments.tables.rows && q in s.payments.tables.rows && p != q ==>
            !SameOrder(s.payments.tables.rows[p].state, s.payments.tables.rows[q].state))
      && (forall o, paymentId, reason ::
            ConfirmOrder(o, paymentId) !in s.commands || CancelOrder(o, reason) !in s.commands)
  {
    var s := Exec(Init(levels), actions);
    ReachableIsOk(levels, actions);
    forall o, k | 0 < k < |s.inventory.tables.Stream(o)| ensures s.inventory.tables.Stream(o)[k].InventoryReleased? {
      OneReservationOutcome(FactsOf(s), o, k);
    }
    forall p, k | 0 < k < |s.payments.tables.Stream(p)| ensures s.payments.tables.Stream(p)[k].PaymentRefunded? {
      OnePaymentOutcome(FactsOf(s), p, k);
    }
    forall p, q | p in s.payments.tables.rows && q in s.payments.tables.rows && p != q
      ensures !SameOrder(s.payments.tables.rows[p].state, s.payments.tables.rows[q].state)
    {
      if SameOrder(s.payments.tables.rows[p].state, s.payments.tables.rows[q].state) { OnePayment(s, p, q); }
    }
    forall o, paymentId, reason
      ensures ConfirmOrder(o, paymentId) !in s.commands || CancelOrder(o, reason) !in s.commands
    {
      OneEnding(s, o, paymentId, reason);
    }
  }

  /** Every stream is a sentence of its grammar, every projection row is the replay of its stream at the
      stream's length, and every outbox holds exactly its service's stored events. */
  ghost predicate Grammatical(s: State)
  {
    && Consistent(s.orders, OD.Replay) && Consistent(s.inventory.tables, SD.Replay)
    && Consistent(s.payments.tables, PD.Replay)
    && (forall o :: o in s.orders.streams ==> OD.OrderStream(o, s.orders.streams[o]))
    && (forall o :: o in s.inventory.tables.streams ==> SD.StockStream(o, s.inventory.tables.streams[o]))
    && (forall p :: p in s.payments.tables.streams ==> PD.PaymentStream(p, s.payments.tables.streams[p]))
  }

  /** Stream grammar and projection agreement, for all three services, in every reachable state. */
  lemma StreamsAreGrammatical(levels: Levels, actions: seq<Action>)
    ensures Grammatical(Exec(Init(levels), actions))
  {
    var s := Exec(Init(levels), actions);
    var f := FactsOf(s);
    ReachableIsOk(levels, actions);
    forall o | o in s.orders.streams ensures OD.OrderStream(o, s.orders.streams[o]) { assert OrderOk(f, o); }
    forall o | o in s.inventory.tables.streams ensures SD.StockStream(o, s.inventory.tables.streams[o]) {
      assert StockOk(f, o);
    }
    forall p | p in s.payments.tables.streams ensures PD.PaymentStream(p, s.payments.tables.streams[p]) {
      assert PaymentOk(f, p);
    }
  }

  /** The orchestrator never asks for what cannot be done: when ConfirmOrder or CancelOrder is delivered, the
      order exists, so neither handler takes its NotFoundException branch. */
  lemma FinishingCommandsFindTheirOrder(levels: Levels, actions: seq<Action>, c: Command)
    requires c in Exec(Init(levels), actions).commands && (c.ConfirmOrder? || c.CancelOrder?)
    ensures
      var s := Exec(Init(levels), actions);
      && (c.ConfirmOrder? ==> HandleConfirm(s.orders, c.orderId, c.paymentId) != Err(OrderService.NotFound))
      && (c.CancelOrder? ==> HandleCancel(s.orders, c.orderId, c.reason) != Err(OrderService.NotFound))
  {
    ReachableIsOk(levels, actions);
    assert CommandOk(FactsOf(Exec(Init(levels), actions)), c);
  }

  /** The orchestrator publishes nothing that is for customers and operators to ask for. */
  lemma OutsideCommandsAreIssued(s: State, a: Action, c: Command)
    requires FromOutside(c) && c in Do(s, a).commands && c !in s.commands
    ensures a == Issue(c)
  {
    if a.Continue? && a.thread.OutcomeRead? && a.thread.snapshot.currentStepIndex < 2 {
      ShippedStep(a.thread.snapshot, a.thread.event);
    }
  }

  /** The shipped saga never undoes anything by itself: over every run, a ReleaseInventory or RefundPayment
      command on the topic was put there from outside. */
  lemma {:induction false} UndoingComesFromOutside(levels: Levels, actions: seq<Action>, c: Command)
    requires c.ReleaseInventory? || c.RefundPayment?
    requires c in Exec(Init(levels), actions).commands
    ensures exists i :: 0 <= i < |actions| && actions[i] == Issue(c)
    decreases |actions|
  {
    var n := |actions| - 1;
    var before := Exec(Init(levels), actions[..n]);
    if c in before.commands {
      UndoingComesFromOutside(levels, actions[..n], c);
      var i :| 0 <= i < |actions[..n]| && actions[..n][i] == Issue(c);
      assert actions[i] == Issue(c);
    } else {
      OutsideCommandsAreIssued(before, actions[n], c);
    }
  }
}

/** The invariant of the composed system, kept by every action: the tables agree with each other, the streams
    are justified, and so is everything in flight. */
module CheckoutInvariant {
  import opened Basics
  import opened Contracts
  import opened Persistence
  import opened StockLedger
  import opened SagaToolkit
  import opened OrderFulfillment
  import opened OrderService
  import opened InventoryService
  import opened PaymentService
  import opened Checkout
  import opened CheckoutFacts
  import OD = OrderDomain
  import SD = StockDomain
  import PD = PaymentDomain

  ghost predicate TablesOk(s: State)
  {
    && Consistent(s.orders, OD.Replay)
    && Consistent(s.inventory.tables, SD.Replay)
    && Consistent(s.payments.tables, PD.Replay)
  }

  ghost predicate InFlightOk(f: Facts, s: State)
  {
    && (forall e :: e in s.events ==> EventOk(f, e))
    && (forall c :: c in s.commands ==> CommandOk(f, c))
    && (forall o :: o in s.sagas ==> s.sagas[o].sagaId == o && SagaOk(f, s.sagas[o]))
    && (forall t :: t in s.threads ==> ThreadOk(f, t))
  }

  ghost predicate Inv(s: State) { TablesOk(s) && FactsOk(FactsOf(s)) && InFlightOk(FactsOf(s), s) }

  lemma InFlightStable(f: Facts, g: Facts, s: State)
    requires Extends(f, g) && InFlightOk(f, s)
    ensures InFlightOk(g, s)
  {
    forall e | e in s.events ensures EventOk(g, e) { EventStable(f, g, e); }
    forall c | c in s.commands ensures CommandOk(g, c) { CommandStable(f, g, c); }
    forall o | o in s.sagas ensures SagaOk(g, s.sagas[o]) { SagaStable(f, g, s.sagas[o]); }
    forall t | t in s.threads ensures ThreadOk(g, t) { ThreadStable(f, g, t); }
  }

  /* ---- One more piece of evidence ---- */

  function WithOrder(f: Facts, o: OrderId, e: OrderEvent): Facts { f.(orders := f.orders[o := f.OrderAt(o) + [e]]) }

  function WithStock(f: Facts, o: OrderId, e: StockEvent): Facts { f.(stock := f.stock[o := f.StockAt(o) + [e]]) }

  function WithPayment(f: Facts, p: PaymentId, e: PaymentEvent): Facts {
    f.(payments := f.payments[p := f.PaymentAt(p) + [e]])
  }

  function WithReply(f: Facts, o: OrderId, reply: GatewayReply): Facts { f.(gateway := f.gateway[o := reply]) }

  lemma WithOrderExtends(f: Facts, o: OrderId, e: OrderEvent)
    ensures Extends(f, WithOrder(f, o, e))
  {
  }

  lemma WithStockExtends(f: Facts, o: OrderId, e: StockEvent)
    ensures Extends(f, WithStock(f, o, e))
  {
  }

  lemma WithPaymentExtends(f: Facts, p: PaymentId, e: PaymentEvent)
    ensures Extends(f, WithPayment(f, p, e))
  {
  }

  lemma WithReplyExtends(f: Facts, o: OrderId, reply: GatewayReply)
    requires o in f.gateway ==> reply == f.gateway[o]
    ensures Extends(f, WithReply(f, o, reply))
  {
  }

  lemma AppendOrder(f: Facts, o: OrderId, e: OrderEvent)
    requires FactsOk(f)
    requires OD.OrderStream(o, f.OrderAt(o) + [e])
    requires e.OrderConfirmed? ==> e.confirmedPaymentId.Some? && Paid(f, o, e.confirmedPaymentId.value)
    requires e.OrderCancelled? ==> CancelledFor(f, o, e.cancelReason)
    ensures FactsOk(WithOrder(f, o, e)) && Extends(f, WithOrder(f, o, e))
  {
    var g := WithOrder(f, o, e);
    WithOrderExtends(f, o, e);
    RestStable(f, g);
    assert OrderOk(g, o) by {
      EvidenceStable(f, g, o, if e.OrderConfirmed? then e.confirmedPaymentId.value else 0);
    }
  }

  lemma AppendStock(f: Facts, o: OrderId, e: StockEvent)
    requires FactsOk(f)
    requires SD.StockStream(o, f.StockAt(o) + [e])
    requires Placed(f, o) && (e.InventoryReserved? ==> e.lines == ReservationLines(ItemsOf(f, o)))
    requires e.InventoryReservationFailed? ==> RefusedFor(f, o, e.sku, e.shortfall)
    ensures FactsOk(WithStock(f, o, e)) && Extends(f, WithStock(f, o, e))
  {
    var g := WithStock(f, o, e);
    WithStockExtends(f, o, e);
    RestStable(f, g);
    assert StockOk(g, o) by {
      if |f.StockAt(o)| > 0 { assert StockOk(f, o); }
      EvidenceStable(f, g, o, 0);
      if e.InventoryReservationFailed? { RefusalStable(f, g, o, e.sku, e.shortfall); }
    }
  }

  lemma AppendPayment(f: Facts, p: PaymentId, e: PaymentEvent)
    requires FactsOk(f)
    requires PD.PaymentStream(p, f.PaymentAt(p) + [e])
    requires f.PaymentAt(p) == [] ==>
      && e.orderId in f.gateway
      && (e.PaymentAuthorized? ==> f.gateway[e.orderId] == Approved(e.amountCents, e.pspReference))
      && (e.PaymentDeclined? ==> DeclinedAs(e, f.gateway[e.orderId]))
      && (forall q :: f.PaymentAt(q) != [] ==> f.PaymentAt(q)[0].orderId != e.orderId)
    ensures FactsOk(WithPayment(f, p, e)) && Extends(f, WithPayment(f, p, e))
  {
    var g := WithPayment(f, p, e);
    WithPaymentExtends(f, p, e);
    RestStable(f, g);
    assert PaymentOk(g, p) by {
      if f.PaymentAt(p) == [] { assert GatewayOk(f, e.orderId); } else { assert PaymentOk(f, p); }
      assert ReplyKept(f, g, g.PaymentAt(p)[0].orderId);
      EvidenceStable(f, g, g.PaymentAt(p)[0].orderId, p);
    }
    forall q, r | SameOrderPaid(g, q, r) ensures q == r {
      assert PaymentKept(f, g, q) && PaymentKept(f, g, r);
      if f.PaymentAt(p) != [] || (q != p && r != p) { assert SameOrderPaid(f, q, r); }
    }
  }

  lemma AppendReply(f: Facts, o: OrderId, reply: GatewayReply)
    requires FactsOk(f) && Reserved(f, o)
    requires o in f.gateway ==> reply == f.gateway[o]
    requires reply.Approved? ==> reply.amountCents == Total(ItemsOf(f, o))
    ensures FactsOk(WithReply(f, o, reply)) && Extends(f, WithReply(f, o, reply))
  {
    var g := WithReply(f, o, reply);
    WithReplyExtends(f, o, reply);
    RestStable(f, g);
    assert GatewayOk(g, o) by { EvidenceStable(f, g, o, 0); }
  }

  /** What every action must do: grow the evidence and keep the invariant. */
  ghost predicate Advances(s: State, after: State) { Inv(after) && Extends(FactsOf(s), FactsOf(after)) }

  /** An action that records one more piece of evidence and leaves everything in flight alone. */
  lemma Recording(s: State, after: State)
    requires Inv(s) && TablesOk(after) && FactsOk(FactsOf(after)) && Extends(FactsOf(s), FactsOf(after))
    requires after.events == s.events && after.commands == s.commands
    requires after.sagas == s.sagas && after.threads == s.threads
    ensures Advances(s, after)
  {
    InFlightStable(FactsOf(s), FactsOf(after), s);
  }

  /* ---- order-service ---- */

  lemma SavingOrder(s: State, o: OrderId, loaded: seq<OrderEvent>, e: OrderEvent)
    requires Inv(s) && loaded <= s.orders.Stream(o)
    requires loaded == s.orders.Stream(o) ==> OD.OrderStream(o, loaded + [e])
    requires e.OrderConfirmed? ==> e.confirmedPaymentId.Some? && Paid(FactsOf(s), o, e.confirmedPaymentId.value)
    requires e.OrderCancelled? ==> CancelledFor(FactsOf(s), o, e.cancelReason)
    ensures
      var saved := SaveOrder(s.orders, o, loaded, e);
      saved.Some? ==> Advances(s, s.(orders := saved.value))
  {
    var saved := SaveOrder(s.orders, o, loaded, e);
    SaveNextEffect(OrderService.NoClash, OD.Replay, s.orders, o, loaded, e);
    if saved.Some? {
      var after := s.(orders := saved.value);
      assert FactsOf(after) == WithOrder(FactsOf(s), o, e);
      AppendOrder(FactsOf(s), o, e);
      assert TablesOk(after);
      Recording(s, after);
    }
  }

  lemma Creating(s: State, o: OrderId, customerId: CustomerId, items: seq<OrderLineItem>)
    requires Inv(s)
    ensures Advances(s, s.(orders := HandleCreate(s.orders, o, customerId, items)))
  {
    SavingOrder(s, o, [], OrderCreated(o, customerId, items, Total(items)));
  }

  lemma Confirming(s: State, o: OrderId, paymentId: Option<PaymentId>, loaded: seq<OrderEvent>)
    requires Inv(s) && ThreadOk(FactsOf(s), ConfirmLoaded(o, paymentId, loaded))
    ensures Advances(s,
        s.(orders := OkOr(FinishOrder(s.orders, o, loaded, OD.Confirming(o, OD.Replay(loaded), paymentId)), s.orders)))
  {
    var raised := OD.Confirming(o, OD.Replay(loaded), paymentId);
    if raised.Some? {
      if loaded == s.orders.Stream(o) {
        assert OrderOk(FactsOf(s), o);
        OD.OrderCallsKeepGrammar(o, loaded, paymentId, "");
      }
      SavingOrder(s, o, loaded, raised.value);
    }
  }

  lemma Cancelling(s: State, o: OrderId, reason: string, loaded: seq<OrderEvent>)
    requires Inv(s) && ThreadOk(FactsOf(s), CancelLoaded(o, reason, loaded))
    ensures Advances(s,
        s.(orders := OkOr(FinishOrder(s.orders, o, loaded, OD.Cancelling(o, OD.Replay(loaded), reason)), s.orders)))
  {
    var raised := OD.Cancelling(o, OD.Replay(loaded), reason);
    if raised.Some? {
      if loaded == s.orders.Stream(o) {
        assert OrderOk(FactsOf(s), o);
        OD.OrderCallsKeepGrammar(o, loaded, None, reason);
      }
      SavingOrder(s, o, loaded, raised.value);
    }
  }

  /* ---- inventory-service ---- */

  lemma SavingStock(s: State, o: OrderId, loaded: seq<StockEvent>, e: StockEvent, levels: Levels)
    requires Inv(s) && loaded <= s.inventory.tables.Stream(o)
    requires loaded == s.inventory.tables.Stream(o) ==> SD.StockStream(o, loaded + [e])
    requires Placed(FactsOf(s), o) && (e.InventoryReserved? ==> e.lines == ReservationLines(ItemsOf(FactsOf(s), o)))
    requires e.InventoryReservationFailed? ==> RefusedFor(FactsOf(s), o, e.sku, e.shortfall)
    ensures
      var saved := SaveStock(s.inventory.tables, o, loaded, e);
      saved.Some? ==> Advances(s, s.(inventory := Inventory(saved.value, levels)))
  {
    var saved := SaveStock(s.inventory.tables, o, loaded, e);
    SaveNextEffect(InventoryService.NoClash, SD.Replay, s.inventory.tables, o, loaded, e);
    if saved.Some? {
      var after := s.(inventory := Inventory(saved.value, levels));
      assert FactsOf(after) == WithStock(FactsOf(s), o, e);
      AppendStock(FactsOf(s), o, e);
      assert TablesOk(after);
      Recording(s, after);
    }
  }

  lemma Reserving(s: State, o: OrderId, reservationId: ReservationId, lines: seq<ReservationLine>)
    requires Inv(s) && ThreadOk(FactsOf(s), ReserveChecked(o, lines))
    ensures Advances(s, s.(inventory := OkOr(ReserveTransaction(s.inventory, o, reservationId, lines), s.inventory)))
  {
    SavingStock(s, o, [], InventoryReserved(reservationId, o, lines), Incremented(s.inventory.levels, lines));
  }

  lemma Refusing(s: State, o: OrderId, shortage: Shortage)
    requires Inv(s) && ThreadOk(FactsOf(s), ReserveRefused(o, shortage))
    ensures Advances(s, s.(inventory := OkOr(FailureTransaction(s.inventory, o, shortage), s.inventory)))
  {
    SavingStock(s, o, [], InventoryReservationFailed(o, shortage.sku, shortage.reason), s.inventory.levels);
  }

  lemma Releasing(s: State, o: OrderId, loaded: seq<StockEvent>)
    requires Inv(s) && ThreadOk(FactsOf(s), ReleaseLoaded(o, loaded))
    ensures Advances(s, s.(inventory := OkOr(ReleaseTransaction(s.inventory, o, loaded), s.inventory)))
  {
    var raised := SD.Releasing(o, SD.Replay(loaded));
    assert StockOk(FactsOf(s), o);
    if raised.Some? {
      if loaded == s.inventory.tables.Stream(o) {
        SD.ReleaseKeepsGrammar(o, loaded);
      }
      SavingStock(s, o, loaded, raised.value, Decremented(s.inventory.levels, SD.Replay(loaded).lines));
    }
  }

  /* ---- payment-service ---- */

  /** The unique index on the order: a payment that can be saved is the first one of its order. */
  lemma NoOtherPayment(s: State, p: PaymentId, state: PD.PaymentState, q: PaymentId)
    requires Inv(s) && !Collides(SameOrder, s.payments.tables.rows, p, state)
    requires q != p && s.payments.tables.Stream(q) != []
    ensures FactsOf(s).PaymentAt(q)[0].orderId != state.orderId
  {
    var f := FactsOf(s);
    assert PaymentOk(f, q);
    PD.ReplayOfStream(q, f.PaymentAt(q));
    assert q in s.payments.tables.rows && !SameOrder(s.payments.tables.rows[q].state, state);
  }

  lemma SavingPayment(s: State, p: PaymentId, loaded: seq<PaymentEvent>, e: PaymentEvent)
    requires Inv(s) && loaded <= s.payments.tables.Stream(p)
    requires loaded == s.payments.tables.Stream(p) ==> PD.PaymentStream(p, loaded + [e])
    requires loaded == [] ==>
      && e.orderId in s.payments.gateway
      && (e.PaymentAuthorized? ==> s.payments.gateway[e.orderId] == Approved(e.amountCents, e.pspReference))
      && (e.PaymentDeclined? ==> DeclinedAs(e, s.payments.gateway[e.orderId]))
    ensures Advances(s, WithPayments(s, SavePayment(s.payments.tables, p, loaded, e)))
  {
    hide Consistent;
    var f := FactsOf(s);
    assert Extends(f, f);
    var saved := SavePayment(s.payments.tables, p, loaded, e);
    SaveNextEffect(SameOrder, PD.Replay, s.payments.tables, p, loaded, e);
    if saved.Some? {
      if loaded == [] {
        PD.ReplayOfStream(p, loaded + [e]);
        forall q | f.PaymentAt(q) != [] ensures f.PaymentAt(q)[0].orderId != e.orderId {
          NoOtherPayment(s, p, PD.Replay(loaded + [e]), q);
        }
      }
      AppendPayment(f, p, e);
      Recording(s, s.(payments := s.payments.(tables := saved.value)));
    }
  }

  lemma Charging(s: State, o: OrderId, amountCents: int, p: PaymentId, reply: GatewayReply)
    requires Inv(s) && ThreadOk(FactsOf(s), AuthorizeAnswered(o, amountCents, p, reply))
    ensures Advances(s,
        WithPayments(s, SavePayment(s.payments.tables, p, [], PaymentOutcome(p, o, amountCents, reply))))
  {
    assert GatewayOk(FactsOf(s), o);
    SavingPayment(s, p, [], PaymentOutcome(p, o, amountCents, reply));
  }

  lemma Refunding(s: State, p: PaymentId, loaded: seq<PaymentEvent>, reason: Option<string>)
    requires Inv(s) && ThreadOk(FactsOf(s), RefundLoaded(p, loaded))
    ensures
      var refund := PD.Refunding(p, PD.Replay(loaded), reason);
      refund.Some? ==> Advances(s, WithPayments(s, SavePayment(s.payments.tables, p, loaded, refund.value)))
  {
    var refund := PD.Refunding(p, PD.Replay(loaded), reason);
    if refund.Some? {
      if loaded == s.payments.tables.Stream(p) {
        assert PaymentOk(FactsOf(s), p);
        PD.RefundKeepsGrammar(p, loaded, reason);
      }
      SavingPayment(s, p, loaded, refund.value);
    }
  }

  function Asked(s: State, o: OrderId, reply: GatewayReply): State
  {
    s.(payments := s.payments.(gateway := s.payments.gateway[o := reply]))
  }

  lemma Asking(s: State, o: OrderId, amountCents: int, p: PaymentId, decision: Decision)
    requires Inv(s) && ThreadOk(FactsOf(s), AuthorizeChecked(o, amountCents, p))
    ensures
      var reply := ReplyFor(s.payments.gateway, o, amountCents, decision);
      && Advances(s, Asked(s, o, reply))
      && ThreadOk(FactsOf(Asked(s, o, reply)), AuthorizeAnswered(o, amountCents, p, reply))
  {
    var f := FactsOf(s);
    var reply := ReplyFor(s.payments.gateway, o, amountCents, decision);
    if o in f.gateway { assert GatewayOk(f, o); }
    AppendReply(f, o, reply);
    assert FactsOf(Asked(s, o, reply)) == WithReply(f, o, reply);
    Recording(s, Asked(s, o, reply));
    EvidenceStable(f, WithReply(f, o, reply), o, 0);
  }

  /* ---- saga-orchestrator ---- */

  lemma Beginning(f: Facts, created: OrderEvent)
    requires FactsOk(f) && ThreadOk(f, StartChecked(created))
    ensures
      var started := Begin(created.orderId, created.customerId, ReservationLines(created.items), created.totalCents);
      SagaOk(f, started.snapshot) && CommandOk(f, started.published[0])
  {
    assert OrderOk(f, created.orderId);
  }

  lemma HistoryGrows()
    ensures ShippedHistory(0, IN_PROGRESS) + [HistoryEntry("RESERVE_INVENTORY", Failed)] ==
        ShippedHistory(0, COMPENSATED)
    ensures ShippedHistory(0, IN_PROGRESS) + [HistoryEntry("RESERVE_INVENTORY", Succeeded)] ==
        ShippedHistory(1, IN_PROGRESS)
    ensures ShippedHistory(1, IN_PROGRESS) + [HistoryEntry("AUTHORIZE_PAYMENT", Failed)] ==
        ShippedHistory(1, COMPENSATED)
    ensures ShippedHistory(1, IN_PROGRESS) + [HistoryEntry("AUTHORIZE_PAYMENT", Succeeded)] ==
        ShippedHistory(1, COMPLETED)
  {
  }

  /** One engine step on a justified snapshot and a justified event of the same order. */
  lemma Stepping(f: Facts, sn: SagaSnapshot, e: Event)
    requires FactsOk(f) && ThreadOk(f, OutcomeRead(sn, e))
    ensures
      var stepped := Step(sn, e);
      && SagaOk(f, stepped.snapshot) && stepped.snapshot.sagaId == sn.sagaId
      && forall k :: 0 <= k < |stepped.published| ==> CommandOk(f, stepped.published[k])
  {
    ShippedStep(sn, e);
    HistoryGrows();
    var o := sn.sagaId;
    if e.StockEvt? { assert StockOk(f, o); }
    if e.PaymentEvt? { assert PaymentOk(f, e.payment.paymentId); }
  }

  lemma Announcing(f: Facts, sn: SagaSnapshot)
    requires SagaOk(f, sn)
    ensures TerminalCommand(sn).Some? ==> CommandOk(f, TerminalCommand(sn).value)
  {
    var k, n := sn.currentStepIndex, |sn.history| - 1;
    ReasonNamesStep(sn.history[..n], sn.history[n].mark);
    assert sn.history[..n] + [HistoryEntry(sn.history[n].step, sn.history[n].mark)] == sn.history;
  }

  /* ---- Every action ---- */

  /** Adding justified messages, handlers and saga rows changes no evidence. */
  lemma Sending(s: State, after: State)
    requires Inv(s)
    requires after.orders == s.orders && after.inventory == s.inventory && after.payments == s.payments
    requires forall e :: e in after.events && e !in s.events ==> EventOk(FactsOf(s), e)
    requires forall c :: c in after.commands && c !in s.commands ==> CommandOk(FactsOf(s), c)
    requires forall t :: t in after.threads && t !in s.threads ==> ThreadOk(FactsOf(s), t)
    requires forall o :: o in after.sagas && (o !in s.sagas || after.sagas[o] != s.sagas[o]) ==>
                           after.sagas[o].sagaId == o && SagaOk(FactsOf(s), after.sagas[o])
    ensures Advances(s, after)
  {
    assert FactsOf(after) == FactsOf(s);
  }

  lemma Idling(s: State)
    requires Inv(s)
    ensures Advances(s, s)
  {
    Sending(s, s);
  }

  lemma Spawning(s: State, t: Thread)
    requires Inv(s) && ThreadOk(FactsOf(s), t)
    ensures Advances(s, Spawn(s, t))
  {
    Sending(s, Spawn(s, t));
  }

  lemma Publishing(s: State, published: seq<Command>)
    requires Inv(s) && forall k :: 0 <= k < |published| ==> CommandOk(FactsOf(s), published[k])
    ensures Advances(s, Publish(s, published))
  {
    Sending(s, Publish(s, published));
  }

  lemma SavingRow(s: State, sn: SagaSnapshot)
    requires Inv(s) && SagaOk(FactsOf(s), sn)
    ensures Advances(s, s.(sagas := s.sagas[sn.sagaId := sn]))
  {
    Sending(s, s.(sagas := s.sagas[sn.sagaId := sn]));
  }

  /** Two moves in a row, the second of which records nothing new. */
  lemma AndThenSpawning(s: State, next: State, t: Thread)
    requires Advances(s, next) && ThreadOk(FactsOf(next), t)
    ensures Advances(s, Spawn(next, t))
  {
    Spawning(next, t);
    assert FactsOf(Spawn(next, t)) == FactsOf(next);
  }

  /** What a handler reads on its first step justifies its second. */
  lemma ReceiveOrderKeeps(s: State, c: Command, m: Mint)
    requires Inv(s) && CommandOk(FactsOf(s), c) && (c.CreateOrder? || c.ConfirmOrder? || c.CancelOrder?)
    ensures Advances(s, ReceiveCommand(s, c, m))
  {
    if c.CreateOrder? {
      Creating(s, c.orderId, c.customerId, c.items);
    } else if s.orders.Stream(c.orderId) == [] {
      Idling(s);
    } else if c.ConfirmOrder? {
      Spawning(s, ConfirmLoaded(c.orderId, c.paymentId, s.orders.Stream(c.orderId)));
    } else {
      Spawning(s, CancelLoaded(c.orderId, c.reason, s.orders.Stream(c.orderId)));
    }
  }

  lemma ReceiveStockKeeps(s: State, c: Command, m: Mint)
    requires Inv(s) && CommandOk(FactsOf(s), c) && (c.ReserveStock? || c.ReleaseInventory?)
    ensures Advances(s, ReceiveCommand(s, c, m))
  {
    if ReceiveCommand(s, c, m) == s {
      Idling(s);
    } else if c.ReserveStock? {
      Spawning(s, ReserveChecked(c.orderId, c.lines));
    } else {
      Spawning(s, ReleaseLoaded(c.orderId, s.inventory.tables.Stream(c.orderId)));
    }
  }

  lemma ReceivePaymentKeeps(s: State, c: Command, m: Mint)
    requires Inv(s) && CommandOk(FactsOf(s), c) && (c.AuthorizePayment? || c.RefundPayment?)
    ensures Advances(s, ReceiveCommand(s, c, m))
  {
    if ReceiveCommand(s, c, m) == s {
      Idling(s);
    } else if c.AuthorizePayment? {
      Spawning(s, AuthorizeChecked(c.orderId, c.amountCents, m.paymentId));
    } else {
      Spawning(s, RefundLoaded(c.refundPaymentId, s.payments.tables.Stream(c.refundPaymentId)));
    }
  }

  lemma ReceiveKeeps(s: State, c: Command, m: Mint)
    requires Inv(s) && CommandOk(FactsOf(s), c)
    ensures Advances(s, ReceiveCommand(s, c, m))
  {
    if c.CreateOrder? || c.ConfirmOrder? || c.CancelOrder? { ReceiveOrderKeeps(s, c, m); }
    else if c.ReserveStock? || c.ReleaseInventory? { ReceiveStockKeeps(s, c, m); }
    else { ReceivePaymentKeeps(s, c, m); }
  }

  lemma ContinueServiceKeeps(s: State, t: Thread, m: Mint)
    requires Inv(s) && ThreadOk(FactsOf(s), t)
    requires
      || t.ConfirmLoaded? || t.CancelLoaded? || t.ReserveRefused? || t.ReleaseLoaded? || t.AuthorizeAnswered?
      || t.RefundLoaded?
    ensures Advances(s, ContinueThread(s, t, m))
  {
    hide Inv, Advances;
    match t
    case ConfirmLoaded(o, paymentId, loaded) => Confirming(s, o, paymentId, loaded);
    case CancelLoaded(o, reason, loaded) => Cancelling(s, o, reason, loaded);
    case ReserveRefused(o, shortage) => Refusing(s, o, shortage);
    case ReleaseLoaded(o, loaded) => Releasing(s, o, loaded);
    case AuthorizeAnswered(o, amountCents, p, reply) => Charging(s, o, amountCents, p, reply);
    case RefundLoaded(p, loaded) =>
      Refunding(s, p, loaded, REFUND_REASON);
      Idling(s);
  }

  /** What a check finds short is a line of the order. */
  lemma RefusedLineOfOrder(s: State, o: OrderId, lines: seq<ReservationLine>)
    requires Placed(FactsOf(s), o) && lines == ReservationLines(ItemsOf(FactsOf(s), o))
    ensures
      var refused := Shortfall(s.inventory.levels, lines);
      refused.Some? ==> RefusedFor(FactsOf(s), o, refused.value.sku, refused.value.reason)
  {
    var refused, items := Shortfall(s.inventory.levels, lines), ItemsOf(FactsOf(s), o);
    FirstShortage(s.inventory.levels, lines);
    if refused.Some? {
      var i :| && 0 <= i < |lines|
               && (forall j :: 0 <= j < i ==> Covered(s.inventory.levels, lines[j]))
               && Reports(s.inventory.levels, lines[i], refused.value);
      assert RefusedLine(items[i], refused.value.sku, refused.value.reason);
    }
  }

  lemma ContinueReservingKeeps(s: State, t: Thread, m: Mint)
    requires Inv(s) && ThreadOk(FactsOf(s), t) && t.ReserveChecked?
    ensures Advances(s, ContinueThread(s, t, m))
  {
    var reserved := ReserveTransaction(s.inventory, t.orderId, m.reservationId, t.lines);
    if reserved.Err? && reserved.error.Insufficient? {
      RefusedLineOfOrder(s, t.orderId, t.lines);
      Spawning(s, ReserveRefused(t.orderId, reserved.error.shortage));
    } else {
      Reserving(s, t.orderId, m.reservationId, t.lines);
    }
  }

  lemma ContinueAskingKeeps(s: State, t: Thread, m: Mint)
    requires Inv(s) && ThreadOk(FactsOf(s), t) && t.AuthorizeChecked?
    ensures Advances(s, ContinueThread(s, t, m))
  {
    var reply := ReplyFor(s.payments.gateway, t.orderId, t.amountCents, m.decision);
    Asking(s, t.orderId, t.amountCents, t.paymentId, m.decision);
    AndThenSpawning(s, Asked(s, t.orderId, reply), AuthorizeAnswered(t.orderId, t.amountCents, t.paymentId, reply));
  }

  lemma ContinueStartKeeps(s: State, t: Thread, m: Mint)
    requires Inv(s) && ThreadOk(FactsOf(s), t) && (t.StartChecked? || t.StartPublished?)
    ensures Advances(s, ContinueThread(s, t, m))
  {
    match t
    case StartChecked(created) =>
      Beginning(FactsOf(s), created);
      hide Inv, SagaOk, CommandOk, Advances;
      var started := Begin(created.orderId, created.customerId, ReservationLines(created.items), created.totalCents);
      Publishing(s, [started.published[0]]);
      assert Publish(s, [started.published[0]]).commands == s.commands + {started.published[0]};
      AndThenSpawning(s, Publish(s, [started.published[0]]), StartPublished(started.snapshot));
    case StartPublished(sn) => SavingRow(s, sn);
  }

  lemma OutcomeIsPublished(s: State, sn: SagaSnapshot, e: Event, m: Mint)
    requires sn.currentStepIndex < 2
    ensures ContinueThread(s, OutcomeRead(sn, e), m) ==
        Spawn(Publish(s, Step(sn, e).published), OutcomePublished(Step(sn, e).snapshot))
  {
  }

  lemma ContinueOutcomeKeeps(s: State, sn: SagaSnapshot, e: Event, m: Mint)
    requires Inv(s) && ThreadOk(FactsOf(s), OutcomeRead(sn, e))
    ensures Advances(s, ContinueThread(s, OutcomeRead(sn, e), m))
  {
    Stepping(FactsOf(s), sn, e);
    hide Step, Inv, ContinueThread, Advances, SagaOk, CommandOk, EventOk, FactsOk;
    var stepped := Step(sn, e);
    Publishing(s, stepped.published);
    assert FactsOf(Publish(s, stepped.published)) == FactsOf(s);
    AndThenSpawning(s, Publish(s, stepped.published), OutcomePublished(stepped.snapshot));
    OutcomeIsPublished(s, sn, e, m);
  }

  lemma ContinueSavingKeeps(s: State, sn: SagaSnapshot, m: Mint)
    requires Inv(s) && SagaOk(FactsOf(s), sn)
    ensures Advances(s, ContinueThread(s, OutcomePublished(sn), m))
  {
    hide Inv, SagaOk, Advances;
    var saved := s.(sagas := s.sagas[sn.sagaId := sn]);
    SavingRow(s, sn);
    assert FactsOf(saved) == FactsOf(s);
    if Terminal(sn.status) { AndThenSpawning(s, saved, OutcomeSaved(sn)); }
  }

  lemma PublishAsList(s: State, c: Option<Command>)
    ensures Publish(s, AsList(c)) == s.(commands := s.commands + (if c.Some? then {c.value} else {}))
  {
    if c.Some? {
      assert AsList(c)[0] == c.value;
      assert Publish(s, AsList(c)).commands == s.commands + {c.value};
    } else {
      assert Publish(s, AsList(c)).commands == s.commands;
    }
  }

  lemma ContinueAnnouncingKeeps(s: State, sn: SagaSnapshot, m: Mint)
    requires Inv(s) && SagaOk(FactsOf(s), sn)
    ensures Advances(s, ContinueThread(s, OutcomeSaved(sn), m))
  {
    Announcing(FactsOf(s), sn);
    hide Inv, SagaOk, CommandOk, Advances, TerminalCommand;
    Publishing(s, AsList(TerminalCommand(sn)));
    PublishAsList(s, TerminalCommand(sn));
  }

  lemma ContinueKeeps(s: State, t: Thread, m: Mint)
    requires Inv(s) && ThreadOk(FactsOf(s), t)
    ensures Advances(s, ContinueThread(s, t, m))
  {
    if t.ReserveChecked? { ContinueReservingKeeps(s, t, m); }
    else if t.AuthorizeChecked? { ContinueAskingKeeps(s, t, m); }
    else if t.StartChecked? || t.StartPublished? { ContinueStartKeeps(s, t, m); }
    else if t.OutcomeRead? { ContinueOutcomeKeeps(s, t.snapshot, t.event, m); }
    else if t.OutcomePublished? { ContinueSavingKeeps(s, t.snapshot, m); }
    else if t.OutcomeSaved? { ContinueAnnouncingKeeps(s, t.snapshot, m); }
    else { ContinueServiceKeeps(s, t, m); }
  }

  /** Every outbox row holds a stored event of its aggregate. */
  lemma {:induction false} OutboxRowIsStored<E>(outbox: seq<OutboxRow<E>>, k: nat)
    requires k < |outbox|
    ensures exists j ::
      && 0 <= j < |EventsFor(outbox, outbox[k].aggregateId)|
      && EventsFor(outbox, outbox[k].aggregateId)[j] == outbox[k].event
    decreases |outbox|
  {
    var n := |outbox| - 1;
    var id := outbox[k].aggregateId;
    if k == n {
      assert EventsFor(outbox, id)[|EventsFor(outbox, id)| - 1] == outbox[k].event;
    } else {
      OutboxRowIsStored(outbox[..n], k);
      var j :| 0 <= j < |EventsFor(outbox[..n], id)| && EventsFor(outbox[..n], id)[j] == outbox[k].event;
      assert EventsFor(outbox, id)[j] == outbox[k].event;
    }
  }

  lemma RelayedOrderIsRecorded(s: State, k: nat)
    requires Inv(s) && k < |s.orders.outbox|
    ensures EventOk(FactsOf(s), OrderEvt(s.orders.outbox[k].event))
  {
    OutboxRowIsStored(s.orders.outbox, k);
    hide Inv, Consistent;
    assert OrderOk(FactsOf(s), s.orders.outbox[k].aggregateId);
  }

  lemma RelayedStockIsRecorded(s: State, k: nat)
    requires Inv(s) && k < |s.inventory.tables.outbox|
    ensures EventOk(FactsOf(s), StockEvt(s.inventory.tables.outbox[k].event))
  {
    OutboxRowIsStored(s.inventory.tables.outbox, k);
    hide Inv, Consistent;
    assert StockOk(FactsOf(s), s.inventory.tables.outbox[k].aggregateId);
  }

  lemma RelayedPaymentIsRecorded(s: State, k: nat)
    requires Inv(s) && k < |s.payments.tables.outbox|
    ensures EventOk(FactsOf(s), PaymentEvt(s.payments.tables.outbox[k].event))
  {
    OutboxRowIsStored(s.payments.tables.outbox, k);
    hide Inv, Consistent;
    assert PaymentOk(FactsOf(s), s.payments.tables.outbox[k].aggregateId);
  }

  lemma RelayedIsRecorded(s: State, e: Event)
    requires Inv(s) && InOutbox(s, e)
    ensures EventOk(FactsOf(s), e)
  {
    match e
    case OrderEvt(x) =>
      var k :| 0 <= k < |s.orders.outbox| && s.orders.outbox[k].event == x;
      RelayedOrderIsRecorded(s, k);
    case StockEvt(x) =>
      var k :| 0 <= k < |s.inventory.tables.outbox| && s.inventory.tables.outbox[k].event == x;
      RelayedStockIsRecorded(s, k);
    case PaymentEvt(x) =>
      var k :| 0 <= k < |s.payments.tables.outbox| && s.payments.tables.outbox[k].event == x;
      RelayedPaymentIsRecorded(s, k);
  }

  lemma RelayKeeps(s: State, e: Event)
    requires Inv(s) && EventOk(FactsOf(s), e)
    ensures Advances(s, s.(events := s.events + {e}))
  {
    Sending(s, s.(events := s.events + {e}));
  }

  /** What the orchestrator reads for an event justifies the engine step it is about to take. */
  lemma ObservedIsOk(f: Facts, s: State, e: Event)
    requires EventOk(f, e)
    requires OrderOf(e) in s.sagas ==> s.sagas[OrderOf(e)].sagaId == OrderOf(e) && SagaOk(f, s.sagas[OrderOf(e)])
    ensures ObserveEvent(s, e) == s || exists t :: ThreadOk(f, t) && ObserveEvent(s, e) == Spawn(s, t)
  {
    if ObserveEvent(s, e) != s {
      if e.OrderEvt? && e.order.OrderCreated? {
        assert ThreadOk(f, StartChecked(e.order));
      } else {
        assert ThreadOk(f, OutcomeRead(s.sagas[OrderOf(e)], e));
      }
    }
  }

  lemma ObserveKeeps(s: State, e: Event)
    requires Inv(s) && EventOk(FactsOf(s), e)
    ensures Advances(s, ObserveEvent(s, e))
  {
    ObservedIsOk(FactsOf(s), s, e);
    if ObserveEvent(s, e) == s {
      Idling(s);
    } else {
      var t :| ThreadOk(FactsOf(s), t) && ObserveEvent(s, e) == Spawn(s, t);
      Spawning(s, t);
    }
  }

  lemma DoKeeps(s: State, a: Action)
    requires Inv(s)
    ensures Advances(s, Do(s, a))
  {
    match a
    case Issue(c) => Sending(s, Do(s, a));
    case Receive(c, m) => if c in s.commands { ReceiveKeeps(s, c, m); } else { Idling(s); }
    case Continue(t, m) => if t in s.threads { ContinueKeeps(s, t, m); } else { Idling(s); }
    case Relay(e) => if InOutbox(s, e) { RelayedIsRecorded(s, e); RelayKeeps(s, e); } else { Idling(s); }
    case Observe(e) => if e in s.events { ObserveKeeps(s, e); } else { Idling(s); }
    case Drop(t) => Sending(s, s.(threads := s.threads - {t}));
  }

  /** Every reachable state satisfies the invariant. */
  lemma {:induction false} ReachableIsOk(levels: Levels, actions: seq<Action>)
    ensures Inv(Exec(Init(levels), actions))
    decreases |actions|
  {
    if actions != [] {
      ReachableIsOk(levels, actions[..|actions| - 1]);
      DoKeeps(Exec(Init(levels), actions[..|actions| - 1]), actions[|actions| - 1]);
    }
  }

  /** Nothing recorded is ever taken back, along any run from any reachable state. */
  lemma {:induction false} EvidenceOnlyGrows(s: State, actions: seq<Action>)
    requires Inv(s)
    ensures Advances(s, Exec(s, actions))
    decreases |actions|
  {
    if actions == [] {
      Sending(s, s);
    } else {
      var before := Exec(s, actions[..|actions| - 1]);
      EvidenceOnlyGrows(s, actions[..|actions| - 1]);
      DoKeeps(before, actions[|actions| - 1]);
      ExtendsTransitive(FactsOf(s), FactsOf(before), FactsOf(Exec(s, actions)));
    }
  }
}

/** What a crash-free run keeps: everything that happens to an order was asked for by its saga, nothing that was
    asked for is forgotten, and every handler in flight can finish. */
module Progress {
  import opened Basics
  import opened Contracts
  import opened Persistence
  import opened SagaToolkit
  import opened OrderFulfillment
  import opened PaymentService
  import opened Checkout
  import opened CheckoutFacts
  import opened CheckoutInvariant
  import opened Flights
  import OD = OrderDomain
  import PD = PaymentDomain

  /** The snapshot an orchestrator handler has arrived at and is saving or announcing. */
  function Determined(u: Thread): Option<SagaSnapshot>
  {
    if u.StartPublished? || u.OutcomePublished? || u.OutcomeSaved? then Some(u.snapshot) else None
  }

  /** How far the saga of an order has come: the snapshot being saved, or else the row. */
  function SagaOf(w: World, o: OrderId): Option<SagaSnapshot>
  {
    var slot := Slot(SagaConsumer, o);
    if slot in w.busy && Determined(w.busy[slot].thread).Some? then Determined(w.busy[slot].thread)
    else if o in w.state.sagas then Some(w.state.sagas[o])
    else None
  }

  predicate Begun(w: World, o: OrderId) { SagaOf(w, o).Some? }

  predicate Paying(w: World, o: OrderId) { Begun(w, o) && SagaOf(w, o).value.currentStepIndex == 1 }

  predicate Over(w: World, o: OrderId) { Begun(w, o) && Terminal(SagaOf(w, o).value.status) }

  predicate HasPaymentFor(f: Facts, o: OrderId, p: PaymentId) { f.PaymentAt(p) != [] && f.PaymentAt(p)[0].orderId == o }

  ghost predicate Unpaid(f: Facts, o: OrderId) { forall p :: !HasPaymentFor(f, o, p) }

  /** The message has had its effect. */
  ghost predicate Handled(w: World, t: Token)
  {
    var f := FactsOf(w.state);
    match t
    case Row(e) => e in w.state.events
    case Evt(OrderEvt(OrderCreated(o, _, _, _))) => Begun(w, o)
    case Evt(e) => Over(w, OrderOf(e)) || (e.StockEvt? && Paying(w, OrderOf(e)))
    case Cmd(CreateOrder(o, _, _)) => f.OrderAt(o) != []
    case Cmd(ReserveStock(o, _)) => f.StockAt(o) != []
    case Cmd(AuthorizePayment(o, _, _)) => !Unpaid(f, o)
    case Cmd(ConfirmOrder(o, _)) => |f.OrderAt(o)| == 2
    case Cmd(CancelOrder(o, _)) => |f.OrderAt(o)| == 2
    case Cmd(_) => false
  }

  /** The message this handler is working on, as long as the effect is still to come. */
  predicate Serves(u: Thread, t: Token)
  {
    match u
    case ConfirmLoaded(o, paymentId, _) => t == Cmd(ConfirmOrder(o, paymentId))
    case CancelLoaded(o, reason, _) => t == Cmd(CancelOrder(o, reason))
    case ReserveChecked(o, _) => t.Cmd? && t.command.ReserveStock? && t.command.orderId == o
    case ReserveRefused(o, _) => t.Cmd? && t.command.ReserveStock? && t.command.orderId == o
    case AuthorizeChecked(o, _, _) => t.Cmd? && t.command.AuthorizePayment? && t.command.orderId == o
    case AuthorizeAnswered(o, _, _, _) => t.Cmd? && t.command.AuthorizePayment? && t.command.orderId == o
    case StartChecked(created) => t == Evt(OrderEvt(created))
    case OutcomeRead(_, e) => t == Evt(e)
    case _ => false
  }

  predicate Serving(w: World, t: Token)
  {
    TokenSlot(t).Some? && TokenSlot(t).value in w.busy && Serves(w.busy[TokenSlot(t).value].thread, t)
  }

  /** The event moves the saga it belongs to. */
  predicate Moves(sn: SagaSnapshot, e: Event)
  {
    && sn.status == IN_PROGRESS && sn.sagaId == OrderOf(e) == sn.context.orderId
    && (if sn.currentStepIndex == 0 then TypeOf(e) == INVENTORY_RESERVED || TypeOf(e) == INVENTORY_RESERVATION_FAILED
        else sn.currentStepIndex == 1 && (TypeOf(e) == PAYMENT_AUTHORIZED || TypeOf(e) == PAYMENT_DECLINED))
  }

  /** The event belongs to a step the saga has passed. */
  predicate Passed(sn: SagaSnapshot, e: Event)
  {
    sn.status == IN_PROGRESS && sn.sagaId == OrderOf(e) && e.StockEvt? && sn.currentStepIndex == 1
  }

  /** Nothing happens to an order before its saga asked for it, and nothing else asks. */
  predicate CommandDriven(w: World, c: Command)
  {
    match c
    case CreateOrder(_, _, _) => true
    case ReserveStock(o, _) => Begun(w, o)
    case AuthorizePayment(o, _, _) => Paying(w, o)
    case ConfirmOrder(o, _) => Over(w, o)
    case CancelOrder(o, _) => Over(w, o)
    case _ => false
  }

  predicate OrderDriven(w: World, o: OrderId) { |FactsOf(w.state).OrderAt(o)| == 2 ==> Over(w, o) }

  predicate StockDriven(w: World, o: OrderId)
  {
    FactsOf(w.state).StockAt(o) != [] ==> |FactsOf(w.state).StockAt(o)| == 1 && Begun(w, o)
  }

  predicate PaymentDriven(w: World, p: PaymentId)
  {
    var events := FactsOf(w.state).PaymentAt(p);
    events != [] ==> |events| == 1 && Paying(w, events[0].orderId)
  }

  /** The command a saga is waiting on, or ends with, has been published, or is about to be. */
  predicate Announced(w: World, o: OrderId)
  {
    match SagaOf(w, o)
    case None => true
    case Some(sn) =>
      if Terminal(sn.status) then
        || TerminalCommand(sn).value in w.state.commands
        || (Slot(SagaConsumer, o) in w.busy && Determined(w.busy[Slot(SagaConsumer, o)].thread) == Some(sn))
      else if sn.currentStepIndex == 0 then ReserveCommand(sn.context) in w.state.commands
      else AuthorizeCommand(sn.context) in w.state.commands
  }

  /** A handler in flight read what is still so, and what it was asked to do is still to be done; a duplicate
      finds everything done. */
  ghost predicate FlightOk(w: World, x: Slot)
    requires x in w.busy
  {
    var f, sagas, first := FactsOf(w.state), w.state.sagas, w.busy[x].first;
    match w.busy[x].thread
    case ConfirmLoaded(o, _, loaded) => loaded == f.OrderAt(o) && Over(w, o) && (first || |loaded| == 2)
    case CancelLoaded(o, _, loaded) => loaded == f.OrderAt(o) && Over(w, o) && (first || |loaded| == 2)
    case ReserveChecked(o, _) => first && f.StockAt(o) == [] && Begun(w, o)
    case ReserveRefused(o, _) => first && f.StockAt(o) == [] && Begun(w, o)
    case AuthorizeChecked(o, _, p) => first && Unpaid(f, o) && p !in f.payments && Paying(w, o)
    case AuthorizeAnswered(o, _, p, _) => first && Unpaid(f, o) && p !in f.payments && Paying(w, o)
    case StartChecked(created) => first && created.OrderCreated? && created.orderId !in sagas
    case StartPublished(sn) => first && sn.sagaId !in sagas && sn.status == IN_PROGRESS && sn.currentStepIndex == 0
    case OutcomeRead(sn, e) =>
      && sn.sagaId in sagas && sagas[sn.sagaId] == sn
      && ((first && Moves(sn, e)) || Passed(sn, e))
    case OutcomePublished(sn) =>
      && sn.sagaId in sagas && !Terminal(sagas[sn.sagaId].status)
      && (sagas[sn.sagaId].currentStepIndex == 1 ==> sn.currentStepIndex == 1)
      && (first || sn == sagas[sn.sagaId])
    case OutcomeSaved(sn) => first && sn.sagaId in sagas && sagas[sn.sagaId] == sn && Terminal(sn.status)
    case _ => false
  }

  predicate Apart(w: World, x: Slot, y: Slot)
  {
    x in w.busy && y in w.busy && x != y && PaymentIdOf(w.busy[x].thread).Some? ==>
      PaymentIdOf(w.busy[x].thread) != PaymentIdOf(w.busy[y].thread)
  }

  function Threads(busy: map<Slot, Flight>): set<Thread> { set x | x in busy :: busy[x].thread }

  ghost predicate Airborne(w: World)
  {
    && w.state.threads == Threads(w.busy)
    && forall x :: x in w.busy ==> ThreadSlot(w.busy[x].thread) == x
  }

  ghost predicate Driven(w: World)
  {
    && Airborne(w)
    && (forall c :: c in w.state.commands ==> CommandDriven(w, c))
    && (forall o :: OrderDriven(w, o))
    && (forall o :: StockDriven(w, o))
    && (forall p :: PaymentDriven(w, p))
    && (forall o :: Announced(w, o))
    && (forall x :: x in w.busy ==> FlightOk(w, x))
    && (forall x, y :: Apart(w, x, y))
  }

  /* ---- What a step leaves alone ---- */

  predicate RowGrows(w: World, v: World, o: OrderId)
  {
    SagaOf(w, o).Some? ==>
      && SagaOf(v, o).Some?
      && (SagaOf(w, o).value.currentStepIndex == 1 ==> SagaOf(v, o).value.currentStepIndex == 1)
      && (Terminal(SagaOf(w, o).value.status) ==> SagaOf(v, o) == SagaOf(w, o))
  }

  ghost predicate Grows(w: World, v: World)
  {
    && Extends(FactsOf(w.state), FactsOf(v.state))
    && w.state.events <= v.state.events && w.state.commands <= v.state.commands
    && forall o :: RowGrows(w, v, o)
  }

  predicate OutboxesGrow(s: State, after: State)
  {
    && s.orders.outbox <= after.orders.outbox
    && s.inventory.tables.outbox <= after.inventory.tables.outbox
    && s.payments.tables.outbox <= after.payments.tables.outbox
  }

  predicate OrderLocal(w: World, v: World, slot: Option<Slot>, o: OrderId)
  {
    FactsOf(v.state).OrderAt(o) == FactsOf(w.state).OrderAt(o) || slot == Some(Slot(OrderConsumer, o))
  }

  predicate StockLocal(w: World, v: World, slot: Option<Slot>, o: OrderId)
  {
    FactsOf(v.state).StockAt(o) == FactsOf(w.state).StockAt(o) || slot == Some(Slot(StockConsumer, o))
  }

  ghost predicate PaymentLocal(w: World, v: World, slot: Option<Slot>, p: PaymentId)
  {
    var before, after := FactsOf(w.state), FactsOf(v.state);
    || ((p in after.payments <==> p in before.payments) && after.PaymentAt(p) == before.PaymentAt(p))
    || (after.PaymentAt(p) != [] && slot == Some(Slot(PaymentConsumer, after.PaymentAt(p)[0].orderId))
        && forall x :: x in w.busy && slot != Some(x) ==> PaymentIdOf(w.busy[x].thread) != Some(p))
  }

  predicate SagaLocal(w: World, v: World, slot: Option<Slot>, o: OrderId)
  {
    || slot == Some(Slot(SagaConsumer, o))
    || ((o in v.state.sagas <==> o in w.state.sagas) && (o in w.state.sagas ==> v.state.sagas[o] == w.state.sagas[o]))
  }

  predicate BusyLocal(w: World, v: World, slot: Option<Slot>, x: Slot)
  {
    slot == Some(x) || ((x in v.busy <==> x in w.busy) && (x in w.busy ==> v.busy[x] == w.busy[x]))
  }

  /** Only the order and the consumer of the slot are touched. */
  ghost predicate Local(w: World, v: World, slot: Option<Slot>)
  {
    && (forall o :: OrderLocal(w, v, slot, o))
    && (forall o :: StockLocal(w, v, slot, o))
    && (forall p :: PaymentLocal(w, v, slot, p))
    && (forall o :: SagaLocal(w, v, slot, o))
    && (forall x :: BusyLocal(w, v, slot, x))
  }

  /** What is to be shown at the slot a step touched. */
  ghost predicate SlotOk(v: World, x: Slot)
  {
    && (x in v.busy ==> FlightOk(v, x) && forall y :: Apart(v, x, y) && Apart(v, y, x))
    && match x.consumer
       case OrderConsumer => OrderDriven(v, x.orderId)
       case StockConsumer => StockDriven(v, x.orderId)
       case PaymentConsumer => forall p :: HasPaymentFor(FactsOf(v.state), x.orderId, p) ==> PaymentDriven(v, p)
       case SagaConsumer => Announced(v, x.orderId)
  }

  lemma OtherFlightOk(w: World, v: World, slot: Option<Slot>, x: Slot)
    requires Grows(w, v) && Local(w, v, slot)
    requires slot != Some(x) && x in w.busy && x in v.busy && FlightOk(w, x) && ThreadSlot(w.busy[x].thread) == x
    ensures FlightOk(v, x)
  {
    var o := x.orderId;
    assert BusyLocal(w, v, slot, x) && RowGrows(w, v, o);
    assert OrderLocal(w, v, slot, o) && StockLocal(w, v, slot, o) && SagaLocal(w, v, slot, o);
    if PaymentIdOf(w.busy[x].thread).Some? {
      var p := PaymentIdOf(w.busy[x].thread).value;
      assert PaymentLocal(w, v, slot, p);
      forall q ensures !HasPaymentFor(FactsOf(v.state), o, q) {
        assert PaymentLocal(w, v, slot, q) && !HasPaymentFor(FactsOf(w.state), o, q);
      }
    }
  }

  lemma OthersDriven(w: World, v: World, slot: Option<Slot>)
    requires Driven(w) && Grows(w, v) && Local(w, v, slot)
    ensures forall o :: slot != Some(Slot(OrderConsumer, o)) ==> OrderDriven(v, o)
    ensures forall o :: slot != Some(Slot(StockConsumer, o)) ==> StockDriven(v, o)
    ensures forall o :: slot != Some(Slot(SagaConsumer, o)) ==> Announced(v, o)
  {
    forall o | slot != Some(Slot(OrderConsumer, o)) ensures OrderDriven(v, o) {
      assert OrderLocal(w, v, slot, o) && OrderDriven(w, o) && RowGrows(w, v, o);
    }
    forall o | slot != Some(Slot(StockConsumer, o)) ensures StockDriven(v, o) {
      assert StockLocal(w, v, slot, o) && StockDriven(w, o) && RowGrows(w, v, o);
    }
    forall o | slot != Some(Slot(SagaConsumer, o)) ensures Announced(v, o) {
      assert SagaLocal(w, v, slot, o) && BusyLocal(w, v, slot, Slot(SagaConsumer, o)) && Announced(w, o);
    }
  }

  lemma PaymentsDriven(w: World, v: World, slot: Option<Slot>, p: PaymentId)
    requires Driven(w) && Grows(w, v) && Local(w, v, slot) && (slot.Some? ==> SlotOk(v, slot.value))
    ensures PaymentDriven(v, p)
  {
    var before, after := FactsOf(w.state), FactsOf(v.state);
    assert PaymentLocal(w, v, slot, p) && PaymentDriven(w, p);
    if after.PaymentAt(p) != [] {
      assert RowGrows(w, v, after.PaymentAt(p)[0].orderId);
      if after.PaymentAt(p) != before.PaymentAt(p) { assert HasPaymentFor(after, slot.value.orderId, p); }
    }
  }

  lemma StaysApart(w: World, v: World, slot: Option<Slot>, x: Slot, y: Slot)
    requires Driven(w) && Local(w, v, slot) && (slot.Some? ==> SlotOk(v, slot.value))
    ensures Apart(v, x, y)
  {
    if x in v.busy && y in v.busy {
      if slot == Some(x) || slot == Some(y) {
        assert SlotOk(v, slot.value) && Apart(v, x, y);
      } else {
        assert BusyLocal(w, v, slot, x) && BusyLocal(w, v, slot, y) && Apart(w, x, y);
      }
    }
  }

  /** A local step that leaves its own slot in order leaves everything in order. */
  lemma LocalKeepsDriven(w: World, v: World, slot: Option<Slot>)
    requires Driven(w) && Airborne(v) && Grows(w, v) && Local(w, v, slot)
    requires forall c :: c in v.state.commands && c !in w.state.commands ==> CommandDriven(v, c)
    requires slot.Some? ==> SlotOk(v, slot.value)
    ensures Driven(v)
  {
    forall c | c in v.state.commands ensures CommandDriven(v, c) {
      if c in w.state.commands { assert CommandDriven(w, c) && RowGrows(w, v, c.orderId); }
    }
    OthersDriven(w, v, slot);
    forall o ensures OrderDriven(v, o) { if slot == Some(Slot(OrderConsumer, o)) { assert SlotOk(v, slot.value); } }
    forall o ensures StockDriven(v, o) { if slot == Some(Slot(StockConsumer, o)) { assert SlotOk(v, slot.value); } }
    forall o ensures Announced(v, o) { if slot == Some(Slot(SagaConsumer, o)) { assert SlotOk(v, slot.value); } }
    forall p ensures PaymentDriven(v, p) { PaymentsDriven(w, v, slot, p); }
    forall x | x in v.busy ensures FlightOk(v, x) {
      if slot == Some(x) { assert SlotOk(v, x); }
      else { assert BusyLocal(w, v, slot, x); OtherFlightOk(w, v, slot, x); }
    }
    forall x, y ensures Apart(v, x, y) { StaysApart(w, v, slot, x, y); }
  }

  lemma HandledStays(w: World, v: World, t: Token)
    requires Handled(w, t) && Grows(w, v) && FactsOk(FactsOf(v.state))
    ensures Handled(v, t)
  {
    var f, g := FactsOf(w.state), FactsOf(v.state);
    match t
    case Row(e) =>
    case Evt(e) => assert RowGrows(w, v, OrderOf(e));
    case Cmd(c) =>
      var o := c.orderId;
      assert OrderKept(f, g, o) && StockKept(f, g, o);
      if c.AuthorizePayment? {
        var p :| HasPaymentFor(f, o, p);
        assert PaymentKept(f, g, p) && HasPaymentFor(g, o, p);
      } else if c.ConfirmOrder? || c.CancelOrder? {
        assert OrderOk(g, o);
      }
  }
}

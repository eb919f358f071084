/** Every step of a crash-free run, handler by handler: it keeps what Progress states, leaves at most one new
    message or row, and brings the protocol strictly closer to its end. */
module HandlerSteps {
  import opened Basics
  import opened Contracts
  import opened Persistence
  import opened StockLedger
  import opened SagaToolkit
  import opened OrderFulfillment
  import opened OrderService
  import opened InventoryService
  import opened PaymentService
  import opened Checkout
  import opened CheckoutFacts
  import opened CheckoutInvariant
  import opened Flights
  import opened Progress
  import OD = OrderDomain
  import SD = StockDomain
  import PD = PaymentDomain

  /* ---- How far the protocol can still go ---- */

  /** From a message or row. */
  function Rank(t: Token): nat
  {
    match t
    case Cmd(CreateOrder(_, _, _)) => 24
    case Row(OrderEvt(OrderCreated(_, _, _, _))) => 23
    case Evt(OrderEvt(OrderCreated(_, _, _, _))) => 22
    case Cmd(ReserveStock(_, _)) => 19
    case Row(StockEvt(_)) => 16
    case Evt(StockEvt(_)) => 15
    case Cmd(AuthorizePayment(_, _, _)) => 12
    case Row(PaymentEvt(_)) => 9
    case Evt(PaymentEvt(_)) => 8
    case Cmd(_) => 4
    case Row(OrderEvt(_)) => 2
    case Evt(OrderEvt(_)) => 1
  }

  /** From a position inside a handler. */
  function Weight(u: Thread): nat
  {
    match u
    case StartChecked(_) => 21
    case ReserveChecked(_, _) => 18
    case ReserveRefused(_, _) => 17
    case OutcomeRead(_, e) => if e.PaymentEvt? then 7 else 14
    case AuthorizeChecked(_, _, _) => 11
    case AuthorizeAnswered(_, _, _, _) => 10
    case OutcomePublished(sn) => if Terminal(sn.status) then 6 else 1
    case OutcomeSaved(_) => 5
    case ConfirmLoaded(_, _, _) => 3
    case CancelLoaded(_, _, _) => 3
    case _ => 1
  }

  function NextWeight(next: Option<Thread>): nat { if next.Some? then Weight(next.value) else 0 }

  /** At most one new token, and it and the handler's next position together weigh less. */
  ghost predicate Lighter(more: set<Token>, next: Option<Thread>, bound: nat)
  {
    || (more == {} && NextWeight(next) < bound)
    || (exists t :: more == {t} && Rank(t) + NextWeight(next) < bound)
  }

  /* ---- New tokens ---- */

  /** The same databases and topics; only the handlers in flight may differ. */
  predicate SameButThreads(s: State, after: State) { after == s.(threads := after.threads) }

  lemma NothingNew(s: State, after: State)
    requires SameButThreads(s, after)
    ensures NewTokens(s, after) == {}
  {
  }

  lemma OneNewRow<E>(before: seq<OutboxRow<E>>, row: OutboxRow<E>)
    ensures RowsSince(before, before + [row]) == {row.event} && RowsSince(before, before) == {}
  {
    assert (before + [row])[|before|] == row;
  }

  lemma OrderRowIsNew(s: State, after: State, row: OutboxRow<OrderEvent>)
    requires after == s.(orders := after.orders, threads := after.threads)
    requires after.orders.outbox == s.orders.outbox + [row]
    ensures NewTokens(s, after) == {Row(OrderEvt(row.event))}
  {
    OneNewRow(s.orders.outbox, row);
  }

  lemma StockRowIsNew(s: State, after: State, row: OutboxRow<StockEvent>)
    requires after == s.(inventory := after.inventory, threads := after.threads)
    requires after.inventory.tables.outbox == s.inventory.tables.outbox + [row]
    ensures NewTokens(s, after) == {Row(StockEvt(row.event))}
  {
    OneNewRow(s.inventory.tables.outbox, row);
  }

  lemma PaymentRowIsNew(s: State, after: State, row: OutboxRow<PaymentEvent>)
    requires after == s.(payments := after.payments, threads := after.threads)
    requires after.payments.tables.outbox == s.payments.tables.outbox + [row]
    ensures NewTokens(s, after) == {Row(PaymentEvt(row.event))}
  {
    OneNewRow(s.payments.tables.outbox, row);
  }

  lemma GatewayAndRowsAreNotNew(s: State, after: State)
    requires after.payments == Payments(s.payments.tables, after.payments.gateway)
    requires after == s.(payments := after.payments, sagas := after.sagas, threads := after.threads)
    ensures NewTokens(s, after) == {}
  {
  }

  lemma CommandIsNew(s: State, after: State, c: Command)
    requires after == s.(commands := s.commands + {c}, threads := after.threads)
    ensures NewTokens(s, after) == if c in s.commands then {} else {Cmd(c)}
  {
    assert after.events == s.events && after.commands == s.commands + {c};
  }

  lemma EventIsNew(s: State, e: Event)
    ensures NewTokens(s, s.(events := s.events + {e})) == if e in s.events then {} else {Evt(e)}
  {
    var after := s.(events := s.events + {e});
    assert after.events == s.events + {e} && after.commands == s.commands;
  }

  /* ---- First and next positions ---- */

  lemma NextStaysInSlot(s: State, u: Thread, m: Mint)
    requires NextThread(s, u, m).Some?
    ensures ThreadSlot(NextThread(s, u, m).value) == ThreadSlot(u) && NextThread(s, u, m).value != u
    ensures PaymentIdOf(NextThread(s, u, m).value) == PaymentIdOf(u)
  {
  }

  lemma EffectKeepsThreads(s: State, u: Thread, m: Mint)
    ensures ThreadEffect(s, u, m).threads == s.threads
  {
  }

  /** v is the world after the next step of the handler in slot x. */
  ghost predicate Landed(w: World, v: World, x: Slot, m: Mint)
    requires x in w.busy
  {
    var u := w.busy[x].thread;
    && Airborne(v) && v.state == ThreadEffect(w.state, u, m).(threads := v.state.threads)
    && v.pending == w.pending + NewTokens(w.state, v.state)
    && v.busy == match NextThread(w.state, u, m)
                 case None => w.busy - {x}
                 case Some(next) => w.busy[x := Flight(next, w.busy[x].first)]
  }

  /** Replacing the handler in a slot replaces its thread. */
  lemma ThreadsAfterMove(w: World, x: Slot, next: Option<Thread>, first: bool)
    requires Airborne(w) && x in w.busy
    requires next.Some? ==> ThreadSlot(next.value) == x && next.value != w.busy[x].thread
    ensures
      var busy := Board(w.busy - {x}, next, first);
      && Threads(busy) == w.state.threads + (if next.Some? then {next.value} else {}) - {w.busy[x].thread}
      && (forall y :: y in busy ==> ThreadSlot(busy[y].thread) == y)
  {
    var u, busy := w.busy[x].thread, Board(w.busy - {x}, next, first);
    forall t ensures t in Threads(busy) <==> t in w.state.threads + (if next.Some? then {next.value} else {}) - {u} {
      if y :| y in w.busy && w.busy[y].thread == t && t != u { assert y != x && y in busy && busy[y].thread == t; }
      if next == Some(t) { assert x in busy && busy[x].thread == t; }
    }
  }

  lemma MoveLands(w: World, x: Slot, m: Mint)
    requires Airborne(w) && x in w.busy
    ensures Landed(w, Move(w, x, m), x, m)
  {
    var u, v := w.busy[x].thread, Move(w, x, m);
    var next := NextThread(w.state, u, m);
    assert u in w.state.threads;
    EffectKeepsThreads(w.state, u, m);
    if next.Some? { NextStaysInSlot(w.state, u, m); }
    ThreadsAfterMove(w, x, next, w.busy[x].first);
    if next.Some? { assert (w.busy - {x})[x := v.busy[x]] == w.busy[x := v.busy[x]]; }
  }

  lemma MoveKeepsInv(w: World, x: Slot, m: Mint)
    requires Inv(w.state) && x in w.busy
    ensures Advances(w.state, Move(w, x, m).state)
  {
    var u := w.busy[x].thread;
    var between := Do(w.state, Continue(u, m));
    DoKeeps(w.state, Continue(u, m));
    DoKeeps(between, Drop(u));
    ExtendsTransitive(FactsOf(w.state), FactsOf(between), FactsOf(Do(between, Drop(u))));
  }

  /* ---- Progress of a step ---- */

  /** A step keeps the run in order, only adds, and drops no message a handler was working on. */
  ghost predicate Progresses(w: World, v: World)
  {
    && Driven(v) && Grows(w, v) && OutboxesGrow(w.state, v.state)
    && forall t :: Serving(w, t) ==> Handled(v, t) || Serving(v, t)
  }

  ghost predicate ServedAt(w: World, v: World, x: Slot)
  {
    forall t :: TokenSlot(t) == Some(x) && Serving(w, t) ==> Handled(v, t) || Serving(v, t)
  }

  lemma LocalProgresses(w: World, v: World, slot: Option<Slot>)
    requires Driven(w) && Airborne(v) && Grows(w, v) && Local(w, v, slot) && OutboxesGrow(w.state, v.state)
    requires forall c :: c in v.state.commands && c !in w.state.commands ==> CommandDriven(v, c)
    requires slot.Some? ==> SlotOk(v, slot.value) && ServedAt(w, v, slot.value)
    ensures Progresses(w, v)
  {
    LocalKeepsDriven(w, v, slot);
    forall t | Serving(w, t) ensures Handled(v, t) || Serving(v, t) {
      if slot != TokenSlot(t) { assert BusyLocal(w, v, slot, TokenSlot(t).value); }
    }
  }

  /** A step outside the orchestrator leaves every saga where it is. */
  lemma SagasStay(w: World, v: World, x: Slot)
    requires v.state.sagas == w.state.sagas && x.consumer != SagaConsumer
    requires forall y :: BusyLocal(w, v, Some(x), y)
    ensures forall o :: SagaOf(v, o) == SagaOf(w, o)
    ensures forall o :: RowGrows(w, v, o) && SagaLocal(w, v, Some(x), o)
  {
    forall o ensures SagaOf(v, o) == SagaOf(w, o) { assert BusyLocal(w, v, Some(x), Slot(SagaConsumer, o)); }
  }

  lemma ServiceProgresses(w: World, v: World, x: Slot)
    requires Driven(w) && Airborne(v) && Extends(FactsOf(w.state), FactsOf(v.state))
    requires v.state.events == w.state.events && v.state.commands == w.state.commands && v.state.sagas == w.state.sagas
    requires x.consumer != SagaConsumer && forall y :: BusyLocal(w, v, Some(x), y)
    requires forall o :: OrderLocal(w, v, Some(x), o)
    requires forall o :: StockLocal(w, v, Some(x), o)
    requires forall p :: PaymentLocal(w, v, Some(x), p)
    requires OutboxesGrow(w.state, v.state) && SlotOk(v, x) && ServedAt(w, v, x)
    ensures Progresses(w, v)
  {
    SagasStay(w, v, x);
    LocalProgresses(w, v, Some(x));
  }

  /** A step that records nothing: only the handler's position changes. */
  lemma QuietProgresses(w: World, v: World, x: Slot)
    requires Driven(w) && Airborne(v) && SameButThreads(w.state, v.state)
    requires x.consumer != SagaConsumer && forall y :: BusyLocal(w, v, Some(x), y)
    requires x in v.busy ==> FlightOk(v, x) && forall y :: Apart(v, x, y) && Apart(v, y, x)
    requires ServedAt(w, v, x)
    ensures Progresses(w, v)
  {
    SagasStay(w, v, x);
    assert OrderDriven(w, x.orderId) && StockDriven(w, x.orderId);
    forall p ensures PaymentDriven(v, p) { assert PaymentDriven(w, p); }
    ServiceProgresses(w, v, x);
  }

  /* ---- order-service ---- */

  /** Confirming or cancelling an order that is only CREATED always records the outcome. */
  lemma FinishRecords(t: OrderTables, u: Thread) returns (e: OrderEvent)
    requires Consistent(t, OD.Replay) && (u.ConfirmLoaded? || u.CancelLoaded?)
    requires u.orderEvents == t.Stream(u.orderId) && OD.OrderStream(u.orderId, u.orderEvents) && |u.orderEvents| == 1
    ensures
      var raised := if u.ConfirmLoaded? then OD.Confirming(u.orderId, OD.Replay(u.orderEvents), u.confirmedPaymentId)
                    else OD.Cancelling(u.orderId, OD.Replay(u.orderEvents), u.cancelReason);
      var done := FinishOrder(t, u.orderId, u.orderEvents, raised);
      && !e.OrderCreated? && done.Ok?
      && done.value.streams == t.streams[u.orderId := t.Stream(u.orderId) + [e]]
      && done.value.outbox == t.outbox + [OutboxRow(u.orderId, e)]
  {
    OD.ReplayOfStream(u.orderId, u.orderEvents);
    e := if u.ConfirmLoaded? then OrderConfirmed(u.orderId, u.confirmedPaymentId)
        else OrderCancelled(u.orderId, u.cancelReason);
    SaveNextEffect(OrderService.NoClash, OD.Replay, t, u.orderId, u.orderEvents, e);
  }

  /** A finalised order: the guard throws, which the handler takes for a duplicate. */
  lemma FinishSkips(s: State, u: Thread, m: Mint)
    requires (u.ConfirmLoaded? || u.CancelLoaded?) && OD.OrderStream(u.orderId, u.orderEvents) && |u.orderEvents| == 2
    ensures ThreadEffect(s, u, m) == s && NextThread(s, u, m) == None
  {
    OD.ReplayOfStream(u.orderId, u.orderEvents);
  }

  predicate IsFinishing(u: Thread) { u.ConfirmLoaded? || u.CancelLoaded? }

  /** The handler in the slot is done and its order is final. */
  lemma FinishedProgresses(w: World, v: World, x: Slot)
    requires Driven(w) && Airborne(v) && SameButThreads(w.state, v.state)
    requires x in w.busy && x.consumer == OrderConsumer && IsFinishing(w.busy[x].thread)
    requires v.busy == w.busy - {x} && |FactsOf(w.state).OrderAt(x.orderId)| == 2
    ensures Progresses(w, v)
  {
    assert ThreadSlot(w.busy[x].thread) == x;
    QuietProgresses(w, v, x);
  }

  /** The handler in the slot is done and has recorded how its order ended. */
  lemma FinishingProgresses(w: World, v: World, x: Slot, e: OrderEvent)
    requires Driven(w) && Airborne(v) && Extends(FactsOf(w.state), FactsOf(v.state))
    requires x in w.busy && x.consumer == OrderConsumer && IsFinishing(w.busy[x].thread) && Over(w, x.orderId)
    requires v.busy == w.busy - {x} && v.state == w.state.(orders := v.state.orders, threads := v.state.threads)
    requires v.state.orders.streams == w.state.orders.streams[x.orderId := w.state.orders.Stream(x.orderId) + [e]]
    requires v.state.orders.outbox == w.state.orders.outbox + [OutboxRow(x.orderId, e)]
    requires |w.state.orders.Stream(x.orderId)| == 1
    ensures Progresses(w, v)
  {
    hide Progresses;
    assert ThreadSlot(w.busy[x].thread) == x;
    SagasStay(w, v, x);
    ServiceProgresses(w, v, x);
  }

  lemma FinishedStep(w: World, v: World, x: Slot, m: Mint)
    requires Driven(w) && x in w.busy && Landed(w, v, x, m) && IsFinishing(w.busy[x].thread)
    requires |w.busy[x].thread.orderEvents| == 2
    requires FlightOk(w, x) && OrderOk(FactsOf(w.state), x.orderId)
    ensures Progresses(w, v) && SameButThreads(w.state, v.state)
    ensures NextThread(w.state, w.busy[x].thread, m) == None
  {
    assert ThreadSlot(w.busy[x].thread) == x;
    FinishSkips(w.state, w.busy[x].thread, m);
    FinishedProgresses(w, v, x);
  }

  lemma FinishingLands(w: World, v: World, x: Slot, m: Mint) returns (e: OrderEvent)
    requires Airborne(w) && x in w.busy && Landed(w, v, x, m) && IsFinishing(w.busy[x].thread)
    requires |w.busy[x].thread.orderEvents| == 1
    requires Consistent(w.state.orders, OD.Replay) && OD.OrderStream(x.orderId, w.busy[x].thread.orderEvents)
    requires w.busy[x].thread.orderEvents == w.state.orders.Stream(x.orderId)
    ensures
      && Airborne(v) && NextThread(w.state, w.busy[x].thread, m) == None && v.busy == w.busy - {x}
      && v.state == w.state.(orders := v.state.orders, threads := v.state.threads)
      && v.state.orders.streams == w.state.orders.streams[x.orderId := w.state.orders.Stream(x.orderId) + [e]]
      && v.state.orders.outbox == w.state.orders.outbox + [OutboxRow(x.orderId, e)]
      && !e.OrderCreated?
  {
    assert ThreadSlot(w.busy[x].thread) == x;
    e := FinishRecords(w.state.orders, w.busy[x].thread);
  }

  lemma FinishingStep(w: World, v: World, x: Slot, m: Mint)
    requires Driven(w) && x in w.busy && Landed(w, v, x, m) && IsFinishing(w.busy[x].thread)
    requires |w.busy[x].thread.orderEvents| == 1
    requires FlightOk(w, x) && OrderOk(FactsOf(w.state), x.orderId) && Consistent(w.state.orders, OD.Replay)
    requires Extends(FactsOf(w.state), FactsOf(v.state))
    ensures Progresses(w, v) && NextThread(w.state, w.busy[x].thread, m) == None
    ensures exists t :: NewTokens(w.state, v.state) == {t} && Rank(t) == 2
  {
    hide Landed, Progresses, NextThread, ThreadEffect, NewTokens;
    assert ThreadSlot(w.busy[x].thread) == x;
    var e := FinishingLands(w, v, x, m);
    OrderRowIsNew(w.state, v.state, OutboxRow(x.orderId, e));
    assert Rank(Row(OrderEvt(e))) == 2;
    FinishingProgresses(w, v, x, e);
  }

  /* ---- inventory-service ---- */

  predicate IsReserving(u: Thread) { u.ReserveChecked? || u.ReserveRefused? }

  lemma FirstStockEvent(t: StockTables, o: OrderId, e: StockEvent)
    requires Consistent(t, SD.Replay) && t.Stream(o) == []
    ensures
      var saved := SaveStock(t, o, [], e);
      && saved.Some? && saved.value.streams == t.streams[o := [e]]
      && saved.value.outbox == t.outbox + [OutboxRow(o, e)]
  {
    SaveNextEffect(InventoryService.NoClash, SD.Replay, t, o, [], e);
    assert [] + [e] == [e];
  }

  /** The handler in the slot is done and has recorded the first outcome of its reservation. */
  lemma ReservationProgresses(w: World, v: World, x: Slot, e: StockEvent)
    requires Driven(w) && Airborne(v) && Extends(FactsOf(w.state), FactsOf(v.state))
    requires x in w.busy && x.consumer == StockConsumer && IsReserving(w.busy[x].thread) && Begun(w, x.orderId)
    requires v.busy == w.busy - {x} && v.state == w.state.(inventory := v.state.inventory, threads := v.state.threads)
    requires w.state.inventory.tables.Stream(x.orderId) == []
    requires v.state.inventory.tables.streams == w.state.inventory.tables.streams[x.orderId := [e]]
    requires v.state.inventory.tables.outbox == w.state.inventory.tables.outbox + [OutboxRow(x.orderId, e)]
    ensures Progresses(w, v)
  {
    assert ThreadSlot(w.busy[x].thread) == x;
    SagasStay(w, v, x);
    ServiceProgresses(w, v, x);
  }

  /** The handler in the slot found the stock short and goes on to record that. */
  lemma ShortageProgresses(w: World, v: World, x: Slot, shortage: Shortage)
    requires Driven(w) && Airborne(v) && SameButThreads(w.state, v.state)
    requires x in w.busy && x.consumer == StockConsumer && w.busy[x].thread.ReserveChecked? && FlightOk(w, x)
    requires v.busy == w.busy[x := Flight(ReserveRefused(x.orderId, shortage), w.busy[x].first)]
    ensures Progresses(w, v)
  {
    assert ThreadSlot(w.busy[x].thread) == x;
    SagasStay(w, v, x);
    QuietProgresses(w, v, x);
  }

  /** What the next step of a reservation records, unless the stock is short. */
  function ReservationEvent(u: Thread, m: Mint): StockEvent
    requires IsReserving(u)
  {
    if u.ReserveChecked? then InventoryReserved(m.reservationId, u.orderId, u.lines)
    else InventoryReservationFailed(u.orderId, u.shortage.sku, u.shortage.reason)
  }

  lemma ShortageStep(w: World, v: World, x: Slot, m: Mint)
    requires Driven(w) && x in w.busy && Landed(w, v, x, m) && FlightOk(w, x) && w.busy[x].thread.ReserveChecked?
    requires Shortfall(w.state.inventory.levels, w.busy[x].thread.lines).Some?
    ensures Progresses(w, v) && NewTokens(w.state, v.state) == {}
    ensures NextWeight(NextThread(w.state, w.busy[x].thread, m)) == 17
  {
    assert ThreadSlot(w.busy[x].thread) == x;
    NothingNew(w.state, v.state);
    ShortageProgresses(w, v, x, Shortfall(w.state.inventory.levels, w.busy[x].thread.lines).value);
  }

  lemma ReservationLands(w: World, v: World, x: Slot, m: Mint)
    requires Airborne(w) && x in w.busy && Landed(w, v, x, m) && IsReserving(w.busy[x].thread)
    requires Consistent(w.state.inventory.tables, SD.Replay) && w.state.inventory.tables.Stream(x.orderId) == []
    requires w.busy[x].thread.ReserveChecked? ==> Shortfall(w.state.inventory.levels, w.busy[x].thread.lines).None?
    ensures
      var e := ReservationEvent(w.busy[x].thread, m);
      && Airborne(v) && NextThread(w.state, w.busy[x].thread, m) == None && v.busy == w.busy - {x}
      && v.state == w.state.(inventory := v.state.inventory, threads := v.state.threads)
      && v.state.inventory.tables.streams == w.state.inventory.tables.streams[x.orderId := [e]]
      && v.state.inventory.tables.outbox == w.state.inventory.tables.outbox + [OutboxRow(x.orderId, e)]
      && NewTokens(w.state, v.state) == {Row(StockEvt(e))}
  {
    var e := ReservationEvent(w.busy[x].thread, m);
    assert ThreadSlot(w.busy[x].thread) == x;
    FirstStockEvent(w.state.inventory.tables, x.orderId, e);
    StockRowIsNew(w.state, v.state, OutboxRow(x.orderId, e));
  }

  lemma ReservationStep(w: World, v: World, x: Slot, m: Mint)
    requires Driven(w) && x in w.busy && Landed(w, v, x, m) && FlightOk(w, x) && IsReserving(w.busy[x].thread)
    requires Consistent(w.state.inventory.tables, SD.Replay)
    requires w.busy[x].thread.ReserveChecked? ==> Shortfall(w.state.inventory.levels, w.busy[x].thread.lines).None?
    requires Extends(FactsOf(w.state), FactsOf(v.state))
    ensures Progresses(w, v) && NextThread(w.state, w.busy[x].thread, m) == None
    ensures exists t :: NewTokens(w.state, v.state) == {t} && Rank(t) == 16
  {
    hide Landed, Progresses, NextThread, ThreadEffect, NewTokens;
    var e := ReservationEvent(w.busy[x].thread, m);
    assert ThreadSlot(w.busy[x].thread) == x;
    ReservationLands(w, v, x, m);
    assert Rank(Row(StockEvt(e))) == 16;
    ReservationProgresses(w, v, x, e);
  }

  /* ---- payment-service ---- */

  lemma PaymentIsProjected(s: State, p: PaymentId)
    requires Consistent(s.payments.tables, PD.Replay) && FactsOk(FactsOf(s)) && FactsOf(s).PaymentAt(p) != []
    ensures p in s.payments.tables.rows
    ensures s.payments.tables.rows[p].state.orderId == FactsOf(s).PaymentAt(p)[0].orderId
  {
    assert PaymentOk(FactsOf(s), p);
    PD.ReplayOfStream(p, FactsOf(s).PaymentAt(p));
  }

  lemma PaymentIsFound(s: State, o: OrderId)
    requires Consistent(s.payments.tables, PD.Replay) && FactsOk(FactsOf(s))
    ensures HasPayment(s.payments.tables, o) <==> !Unpaid(FactsOf(s), o)
  {
    if q :| q in s.payments.tables.rows && s.payments.tables.rows[q].state.orderId == o {
      PaymentIsProjected(s, q);
      assert HasPaymentFor(FactsOf(s), o, q);
    }
    if p :| HasPaymentFor(FactsOf(s), o, p) { PaymentIsProjected(s, p); }
  }

  lemma FirstPaymentEvent(t: PaymentTables, p: PaymentId, e: PaymentEvent)
    requires Consistent(t, PD.Replay) && p !in t.streams && !HasPayment(t, e.orderId) && PD.PaymentStream(p, [e])
    ensures
      var saved := SavePayment(t, p, [], e);
      && saved.Some? && saved.value.streams == t.streams[p := [e]]
      && saved.value.outbox == t.outbox + [OutboxRow(p, e)]
  {
    hide Consistent;
    assert [] + [e] == [e];
    PD.ReplayOfStream(p, [e]);
    SaveNextEffect(SameOrder, PD.Replay, t, p, [], e);
  }

  lemma PaymentIsLocal(w: World, v: World, x: Slot, p: PaymentId, q: PaymentId)
    requires (forall y :: Apart(w, x, y)) && x in w.busy && PaymentIdOf(w.busy[x].thread) == Some(p)
    requires FactsOf(v.state).PaymentAt(p) != [] && FactsOf(v.state).PaymentAt(p)[0].orderId == x.orderId
    requires x.consumer == PaymentConsumer
    requires q != p ==> (q in v.state.payments.tables.streams <==> q in w.state.payments.tables.streams)
    requires q != p ==> FactsOf(v.state).PaymentAt(q) == FactsOf(w.state).PaymentAt(q)
    ensures PaymentLocal(w, v, Some(x), q)
  {
    if q == p {
      forall y | y in w.busy && y != x ensures PaymentIdOf(w.busy[y].thread) != Some(p) { assert Apart(w, x, y); }
    }
  }

  /** The handler in the slot is done and has recorded the payment of its order. */
  lemma PaymentProgresses(w: World, v: World, x: Slot, p: PaymentId, e: PaymentEvent)
    requires Driven(w) && Airborne(v) && Extends(FactsOf(w.state), FactsOf(v.state))
    requires x in w.busy && x.consumer == PaymentConsumer && w.busy[x].thread.AuthorizeAnswered?
    requires w.busy[x].thread.paymentId == p && FlightOk(w, x) && e.orderId == x.orderId
    requires v.busy == w.busy - {x} && v.state == w.state.(payments := v.state.payments, threads := v.state.threads)
    requires v.state.payments.tables.streams == w.state.payments.tables.streams[p := [e]]
    requires v.state.payments.tables.outbox == w.state.payments.tables.outbox + [OutboxRow(p, e)]
    ensures Progresses(w, v)
  {
    hide Progresses, PaymentLocal;
    assert ThreadSlot(w.busy[x].thread) == x;
    SagasStay(w, v, x);
    forall q ensures PaymentLocal(w, v, Some(x), q) { PaymentIsLocal(w, v, x, p, q); }
    forall q | HasPaymentFor(FactsOf(v.state), x.orderId, q) ensures q == p {
      assert q != p ==> HasPaymentFor(FactsOf(w.state), x.orderId, q);
    }
    assert HasPaymentFor(FactsOf(v.state), x.orderId, p) && SagaOf(v, x.orderId) == SagaOf(w, x.orderId);
    ServiceProgresses(w, v, x);
  }

  lemma PaymentLands(w: World, v: World, x: Slot, m: Mint, e: PaymentEvent)
    requires Airborne(w) && x in w.busy && Landed(w, v, x, m) && w.busy[x].thread.AuthorizeAnswered?
    requires
      var u := w.busy[x].thread;
      && e == PaymentOutcome(u.paymentId, u.orderId, u.amountCents, u.reply)
      && Consistent(w.state.payments.tables, PD.Replay)
      && u.paymentId !in w.state.payments.tables.streams && !HasPayment(w.state.payments.tables, u.orderId)
    ensures
      var p := w.busy[x].thread.paymentId;
      && Airborne(v) && NextThread(w.state, w.busy[x].thread, m) == None && v.busy == w.busy - {x}
      && v.state == w.state.(payments := v.state.payments, threads := v.state.threads)
      && v.state.payments.tables.streams == w.state.payments.tables.streams[p := [e]]
      && v.state.payments.tables.outbox == w.state.payments.tables.outbox + [OutboxRow(p, e)]
      && e.orderId == w.busy[x].thread.orderId
  {
    FirstPaymentEvent(w.state.payments.tables, w.busy[x].thread.paymentId, e);
  }

  lemma PaymentStep(w: World, v: World, x: Slot, m: Mint)
    requires Driven(w) && x in w.busy && Landed(w, v, x, m) && FlightOk(w, x) && w.busy[x].thread.AuthorizeAnswered?
    requires Consistent(w.state.payments.tables, PD.Replay) && FactsOk(FactsOf(w.state))
    requires Extends(FactsOf(w.state), FactsOf(v.state))
    ensures Progresses(w, v) && NextThread(w.state, w.busy[x].thread, m) == None
    ensures exists t :: NewTokens(w.state, v.state) == {t} && Rank(t) == 9
  {
    hide Landed, Progresses, NextThread, ThreadEffect, NewTokens, Step, FactsOk;
    var u := w.busy[x].thread;
    var e := PaymentOutcome(u.paymentId, u.orderId, u.amountCents, u.reply);
    assert ThreadSlot(u) == x;
    PaymentIsFound(w.state, u.orderId);
    PaymentLands(w, v, x, m, e);
    PaymentRowIsNew(w.state, v.state, OutboxRow(u.paymentId, e));
    assert Rank(Row(PaymentEvt(e))) == 9;
    PaymentProgresses(w, v, x, u.paymentId, e);
  }

  /** The handler in the slot has the gateway's answer. */
  lemma AnswerFlightOk(w: World, v: World, x: Slot)
    requires x in w.busy && w.busy[x].thread.AuthorizeChecked? && FlightOk(w, x)
    requires x in v.busy && v.busy[x].thread.AuthorizeAnswered? && v.busy[x].first == w.busy[x].first
    requires v.busy[x].thread.orderId == w.busy[x].thread.orderId
    requires v.busy[x].thread.paymentId == w.busy[x].thread.paymentId
    requires FactsOf(v.state).payments == FactsOf(w.state).payments
    requires SagaOf(v, w.busy[x].thread.orderId) == SagaOf(w, w.busy[x].thread.orderId)
    ensures FlightOk(v, x)
  {
    var o := w.busy[x].thread.orderId;
    forall p ensures !HasPaymentFor(FactsOf(v.state), o, p) { assert !HasPaymentFor(FactsOf(w.state), o, p); }
  }

  lemma AnswerProgresses(w: World, v: World, x: Slot, next: Thread)
    requires Driven(w) && Airborne(v) && Extends(FactsOf(w.state), FactsOf(v.state))
    requires x in w.busy && x.consumer == PaymentConsumer && w.busy[x].thread.AuthorizeChecked? && FlightOk(w, x)
    requires next.AuthorizeAnswered? && next.orderId == x.orderId && next.paymentId == w.busy[x].thread.paymentId
    requires v.busy == w.busy[x := Flight(next, w.busy[x].first)]
    requires v.state == w.state.(payments := Payments(w.state.payments.tables, v.state.payments.gateway),
                                threads := v.state.threads)
    ensures Progresses(w, v)
  {
    hide Progresses, FlightOk;
    assert ThreadSlot(w.busy[x].thread) == x;
    SagasStay(w, v, x);
    assert SagaOf(v, x.orderId) == SagaOf(w, x.orderId);
    AnswerFlightOk(w, v, x);
    forall y ensures Apart(v, x, y) && Apart(v, y, x) { assert Apart(w, x, y) && Apart(w, y, x); }
    forall p ensures PaymentDriven(v, p) { assert PaymentDriven(w, p); }
    ServiceProgresses(w, v, x);
  }

  lemma AnswerLands(w: World, v: World, x: Slot, m: Mint) returns (next: Thread)
    requires Airborne(w) && x in w.busy && Landed(w, v, x, m) && w.busy[x].thread.AuthorizeChecked?
    ensures
      var u := w.busy[x].thread;
      && Airborne(v) && NextThread(w.state, u, m) == Some(next) && v.busy == w.busy[x := Flight(next, w.busy[x].first)]
      && next.AuthorizeAnswered? && next.orderId == u.orderId && next.paymentId == u.paymentId
      && v.state == w.state.(payments := Payments(w.state.payments.tables, v.state.payments.gateway),
                             threads := v.state.threads)
  {
    next := NextThread(w.state, w.busy[x].thread, m).value;
  }

  lemma AnswerStep(w: World, v: World, x: Slot, m: Mint)
    requires Driven(w) && x in w.busy && Landed(w, v, x, m) && FlightOk(w, x) && w.busy[x].thread.AuthorizeChecked?
    requires Extends(FactsOf(w.state), FactsOf(v.state))
    ensures Progresses(w, v) && NewTokens(w.state, v.state) == {}
    ensures NextWeight(NextThread(w.state, w.busy[x].thread, m)) == 10
  {
    hide Landed, Progresses, NextThread, ThreadEffect, NewTokens;
    assert ThreadSlot(w.busy[x].thread) == x;
    var next := AnswerLands(w, v, x, m);
    GatewayAndRowsAreNotNew(w.state, v.state);
    AnswerProgresses(w, v, x, next);
  }

  /* ---- saga-orchestrator ---- */

  /** A step of the orchestrator, which touches its saga's row and the command topic only. */
  lemma SagaProgresses(w: World, v: World, x: Slot)
    requires Driven(w) && Airborne(v)
    requires v.state == w.state.(commands := v.state.commands, sagas := v.state.sagas, threads := v.state.threads)
    requires x.consumer == SagaConsumer && forall y :: BusyLocal(w, v, Some(x), y)
    requires forall o :: SagaLocal(w, v, Some(x), o)
    requires RowGrows(w, v, x.orderId) && w.state.commands <= v.state.commands
    requires forall c :: c in v.state.commands && c !in w.state.commands ==> CommandDriven(v, c)
    requires x in v.busy ==> FlightOk(v, x) && PaymentIdOf(v.busy[x].thread).None?
    requires Announced(v, x.orderId) && ServedAt(w, v, x)
    ensures Progresses(w, v)
  {
    forall o ensures RowGrows(w, v, o) {
      if o != x.orderId { assert SagaLocal(w, v, Some(x), o) && BusyLocal(w, v, Some(x), Slot(SagaConsumer, o)); }
    }
    assert FactsOf(v.state) == FactsOf(w.state);
    LocalProgresses(w, v, Some(x));
  }

  /** The handler in the slot has asked for the reservation and is about to save the new saga. */
  lemma StartAnnounces(w: World, v: World, x: Slot, sn: SagaSnapshot, c: Command)
    requires Airborne(w) && Airborne(v) && x in w.busy && FlightOk(w, x) && w.busy[x].thread.StartChecked?
    requires x.consumer == SagaConsumer && ThreadSlot(w.busy[x].thread) == x && sn.sagaId == x.orderId
    requires sn.status == IN_PROGRESS && sn.currentStepIndex == 0
    requires c == ReserveCommand(sn.context) && c.orderId == x.orderId
    requires v.busy == w.busy[x := Flight(StartPublished(sn), w.busy[x].first)]
    requires v.state == w.state.(commands := w.state.commands + {c}, threads := v.state.threads)
    ensures SagaOf(w, x.orderId) == None && SagaOf(v, x.orderId) == Some(sn)
    ensures Announced(v, x.orderId) && CommandDriven(v, c) && FlightOk(v, x) && ServedAt(w, v, x)
  {
  }

  lemma StartProgresses(w: World, v: World, x: Slot, sn: SagaSnapshot, c: Command)
    requires Driven(w) && Airborne(v) && x in w.busy && FlightOk(w, x) && w.busy[x].thread.StartChecked?
    requires x.consumer == SagaConsumer && sn.sagaId == x.orderId
    requires sn.status == IN_PROGRESS && sn.currentStepIndex == 0
    requires c == ReserveCommand(sn.context) && c.orderId == x.orderId
    requires v.busy == w.busy[x := Flight(StartPublished(sn), w.busy[x].first)]
    requires v.state == w.state.(commands := w.state.commands + {c}, threads := v.state.threads)
    ensures Progresses(w, v)
  {
    hide Progresses, FlightOk, Announced, CommandDriven;
    assert ThreadSlot(w.busy[x].thread) == x;
    StartAnnounces(w, v, x, sn, c);
    SagaProgresses(w, v, x);
  }

  lemma StartLands(w: World, v: World, x: Slot, m: Mint) returns (sn: SagaSnapshot, c: Command)
    requires Airborne(w) && x in w.busy && Landed(w, v, x, m) && FlightOk(w, x) && w.busy[x].thread.StartChecked?
    ensures Airborne(v) && x.consumer == SagaConsumer && sn.sagaId == x.orderId
    ensures sn.status == IN_PROGRESS && sn.currentStepIndex == 0
    ensures c.ReserveStock? && c == ReserveCommand(sn.context) && c.orderId == x.orderId
    ensures NextThread(w.state, w.busy[x].thread, m) == Some(StartPublished(sn))
    ensures v.busy == w.busy[x := Flight(StartPublished(sn), w.busy[x].first)]
    ensures v.state == w.state.(commands := w.state.commands + {c}, threads := v.state.threads)
  {
    var begun := BeginFor(w.busy[x].thread.created);
    sn, c := begun.snapshot, ReserveCommand(begun.snapshot.context);
    assert ThreadSlot(w.busy[x].thread) == x && begun.published == [c];
  }

  lemma StartStep(w: World, v: World, x: Slot, m: Mint)
    requires Driven(w) && x in w.busy && Landed(w, v, x, m) && FlightOk(w, x) && w.busy[x].thread.StartChecked?
    ensures Progresses(w, v) && NextWeight(NextThread(w.state, w.busy[x].thread, m)) == 1
    ensures NewTokens(w.state, v.state) == {} || exists t :: NewTokens(w.state, v.state) == {t} && Rank(t) == 19
  {
    hide Landed, Progresses, NextThread, ThreadEffect, NewTokens;
    var sn, c := StartLands(w, v, x, m);
    CommandIsNew(w.state, v.state, c);
    assert Rank(Cmd(c)) == 19;
    StartProgresses(w, v, x, sn, c);
  }

  /** Saving a determined snapshot changes nothing about where the saga stands. */
  lemma SavedProgresses(w: World, v: World, x: Slot, sn: SagaSnapshot)
    requires Driven(w) && Airborne(v) && x in w.busy && x.consumer == SagaConsumer
    requires Determined(w.busy[x].thread) == Some(sn) && sn.sagaId == x.orderId
    requires forall y :: BusyLocal(w, v, Some(x), y)
    requires x in v.busy ==> FlightOk(v, x) && v.busy[x].thread == OutcomeSaved(sn)
    requires Terminal(sn.status) ==> x in v.busy
    requires v.state == w.state.(sagas := w.state.sagas[x.orderId := sn], threads := v.state.threads)
    ensures Progresses(w, v)
  {
    assert SagaOf(w, x.orderId) == SagaOf(v, x.orderId) == Some(sn);
    assert Announced(w, x.orderId);
    SagaProgresses(w, v, x);
  }

  lemma SaveStartStep(w: World, v: World, x: Slot, m: Mint)
    requires Driven(w) && x in w.busy && Landed(w, v, x, m) && FlightOk(w, x) && w.busy[x].thread.StartPublished?
    ensures Progresses(w, v) && NextThread(w.state, w.busy[x].thread, m) == None
    ensures NewTokens(w.state, v.state) == {}
  {
    assert ThreadSlot(w.busy[x].thread) == x;
    GatewayAndRowsAreNotNew(w.state, v.state);
    SavedProgresses(w, v, x, w.busy[x].thread.snapshot);
  }

  lemma SaveOutcomeStep(w: World, v: World, x: Slot, m: Mint)
    requires Driven(w) && x in w.busy && Landed(w, v, x, m) && FlightOk(w, x) && w.busy[x].thread.OutcomePublished?
    ensures Progresses(w, v) && NewTokens(w.state, v.state) == {}
    ensures NextWeight(NextThread(w.state, w.busy[x].thread, m)) < Weight(w.busy[x].thread)
    ensures !w.busy[x].first ==> SameButThreads(w.state, v.state)
  {
    var sn := w.busy[x].thread.snapshot;
    assert ThreadSlot(w.busy[x].thread) == x;
    GatewayAndRowsAreNotNew(w.state, v.state);
    if !w.busy[x].first { assert w.state.sagas[x.orderId := sn] == w.state.sagas; }
    SavedProgresses(w, v, x, sn);
  }

  /** The handler in the slot is done and has announced how its saga ended. */
  lemma AnnouncedProgresses(w: World, v: World, x: Slot, sn: SagaSnapshot)
    requires Driven(w) && Airborne(v) && x in w.busy && FlightOk(w, x) && w.busy[x].thread == OutcomeSaved(sn)
    requires x.consumer == SagaConsumer && sn.sagaId == sn.context.orderId == x.orderId && Terminal(sn.status)
    requires v.busy == w.busy - {x}
    requires v.state == w.state.(commands := w.state.commands + {TerminalCommand(sn).value}, threads := v.state.threads)
    ensures Progresses(w, v)
  {
    assert SagaOf(w, x.orderId) == SagaOf(v, x.orderId) == Some(sn);
    SagaProgresses(w, v, x);
  }

  lemma AnnounceStep(w: World, v: World, x: Slot, m: Mint)
    requires Driven(w) && x in w.busy && Landed(w, v, x, m) && FlightOk(w, x) && w.busy[x].thread.OutcomeSaved?
    requires w.busy[x].thread.snapshot.context.orderId == x.orderId
    ensures Progresses(w, v) && NextThread(w.state, w.busy[x].thread, m) == None
    ensures NewTokens(w.state, v.state) == {} || exists t :: NewTokens(w.state, v.state) == {t} && Rank(t) == 4
  {
    var sn := w.busy[x].thread.snapshot;
    var c := TerminalCommand(sn).value;
    assert ThreadSlot(w.busy[x].thread) == x;
    CommandIsNew(w.state, v.state, c);
    assert Rank(Cmd(c)) == 4;
    AnnouncedProgresses(w, v, x, sn);
  }

  /** Success of the first step: the saga moves to the payment and asks for it. */
  lemma ForwardStep(sn: SagaSnapshot, e: Event)
    requires Moves(sn, e) && TypeOf(e) == INVENTORY_RESERVED
    ensures
      var next := Step(sn, e).snapshot;
      && Step(sn, e).published == [AuthorizeCommand(next.context)]
      && next.sagaId == sn.sagaId == next.context.orderId && next.status == IN_PROGRESS && next.currentStepIndex == 1
  {
    ShippedStep(sn, e);
  }

  /** Any other expected event ends the saga. */
  lemma FinalStep(sn: SagaSnapshot, e: Event)
    requires Moves(sn, e) && TypeOf(e) != INVENTORY_RESERVED
    ensures
      var next := Step(sn, e).snapshot;
      && Step(sn, e).published == [] && Terminal(next.status)
      && next.sagaId == sn.sagaId == next.context.orderId && next.currentStepIndex == sn.currentStepIndex
  {
    ShippedStep(sn, e);
  }

  /** An event of a step already passed changes nothing. */
  lemma PassedStep(sn: SagaSnapshot, e: Event)
    requires Passed(sn, e)
    ensures Step(sn, e) == Outcome(sn, [])
  {
    ShippedStep(sn, e);
  }

  lemma PublishNothing(s: State)
    ensures Publish(s, []) == s
  {
    assert Publish(s, []).commands == s.commands;
  }

  /** The handler in the slot has determined the saga's next snapshot. */
  lemma DeterminedProgresses(w: World, v: World, x: Slot, next: SagaSnapshot, c: Option<Command>)
    requires Driven(w) && Airborne(v) && x in w.busy && FlightOk(w, x) && w.busy[x].thread.OutcomeRead?
    requires x.consumer == SagaConsumer && next.sagaId == x.orderId
    requires v.busy == w.busy[x := Flight(OutcomePublished(next), w.busy[x].first)]
    requires v.state == w.state.(commands := v.state.commands, threads := v.state.threads)
    requires v.state.commands == w.state.commands + (if c.Some? then {c.value} else {})
    requires w.state.sagas[x.orderId].currentStepIndex == 1 ==> next.currentStepIndex == 1
    requires w.busy[x].first || next == w.state.sagas[x.orderId]
    requires Handled(v, Evt(w.busy[x].thread.event)) && Announced(v, x.orderId)
    requires c.Some? ==> CommandDriven(v, c.value)
    ensures Progresses(w, v)
  {
    hide Progresses;
    assert ThreadSlot(w.busy[x].thread) == x;
    assert SagaOf(w, x.orderId) == Some(w.state.sagas[x.orderId]) && SagaOf(v, x.orderId) == Some(next);
    SagaProgresses(w, v, x);
  }

  lemma PassedLands(w: World, v: World, x: Slot, m: Mint, sn: SagaSnapshot)
    requires Airborne(w) && x in w.busy && Landed(w, v, x, m) && w.busy[x].thread.OutcomeRead?
    requires sn == w.busy[x].thread.snapshot && Passed(sn, w.busy[x].thread.event)
    ensures
      && Airborne(v) && NextThread(w.state, w.busy[x].thread, m) == Some(OutcomePublished(sn))
      && v.busy == w.busy[x := Flight(OutcomePublished(sn), w.busy[x].first)] && SameButThreads(w.state, v.state)
  {
    assert ThreadSlot(w.busy[x].thread) == x;
    PassedStep(sn, w.busy[x].thread.event);
    PublishNothing(w.state);
  }

  lemma PassedEventStep(w: World, v: World, x: Slot, m: Mint)
    requires Driven(w) && x in w.busy && Landed(w, v, x, m) && FlightOk(w, x) && w.busy[x].thread.OutcomeRead?
    requires Passed(w.busy[x].thread.snapshot, w.busy[x].thread.event)
    ensures Progresses(w, v) && SameButThreads(w.state, v.state)
    ensures NextWeight(NextThread(w.state, w.busy[x].thread, m)) == 1
  {
    hide Landed, Progresses, NextThread, ThreadEffect, NewTokens, Step, TerminalCommand;
    var sn := w.busy[x].thread.snapshot;
    assert ThreadSlot(w.busy[x].thread) == x;
    PassedLands(w, v, x, m, sn);
    assert Announced(w, x.orderId) && SagaOf(w, x.orderId) == SagaOf(v, x.orderId) == Some(sn);
    DeterminedProgresses(w, v, x, sn, None);
  }

  lemma ForwardLands(w: World, v: World, x: Slot, m: Mint, next: SagaSnapshot, c: Command)
    requires Airborne(w) && x in w.busy && Landed(w, v, x, m) && w.busy[x].thread.OutcomeRead?
    requires Moves(w.busy[x].thread.snapshot, w.busy[x].thread.event)
    requires TypeOf(w.busy[x].thread.event) == INVENTORY_RESERVED
    requires next == Step(w.busy[x].thread.snapshot, w.busy[x].thread.event).snapshot
    requires c == AuthorizeCommand(next.context)
    ensures
      && Airborne(v) && NextThread(w.state, w.busy[x].thread, m) == Some(OutcomePublished(next))
      && v.busy == w.busy[x := Flight(OutcomePublished(next), w.busy[x].first)]
      && v.state == w.state.(commands := w.state.commands + {c}, threads := v.state.threads)
      && c.orderId == next.sagaId == x.orderId && next.status == IN_PROGRESS && next.currentStepIndex == 1
  {
    assert ThreadSlot(w.busy[x].thread) == x;
    ForwardStep(w.busy[x].thread.snapshot, w.busy[x].thread.event);
    PublishAsList(w.state, Some(c));
    assert AsList(Some(c)) == [c];
  }

  lemma ForwardEventStep(w: World, v: World, x: Slot, m: Mint)
    requires Driven(w) && x in w.busy && Landed(w, v, x, m) && FlightOk(w, x) && w.busy[x].thread.OutcomeRead?
    requires w.busy[x].first && Moves(w.busy[x].thread.snapshot, w.busy[x].thread.event)
    requires TypeOf(w.busy[x].thread.event) == INVENTORY_RESERVED
    ensures Progresses(w, v) && NextWeight(NextThread(w.state, w.busy[x].thread, m)) == 1
    ensures NewTokens(w.state, v.state) == {} || exists t :: NewTokens(w.state, v.state) == {t} && Rank(t) == 12
  {
    hide Landed, Progresses, NextThread, ThreadEffect, NewTokens;
    var next := Step(w.busy[x].thread.snapshot, w.busy[x].thread.event).snapshot;
    var c := AuthorizeCommand(next.context);
    assert ThreadSlot(w.busy[x].thread) == x;
    ForwardLands(w, v, x, m, next, c);
    CommandIsNew(w.state, v.state, c);
    assert Rank(Cmd(c)) == 12 && SagaOf(v, x.orderId) == Some(next) && Paying(v, x.orderId);
    assert Announced(v, x.orderId) && CommandDriven(v, c) && Handled(v, Evt(w.busy[x].thread.event));
    DeterminedProgresses(w, v, x, next, Some(c));
  }

  lemma FinalLands(w: World, v: World, x: Slot, m: Mint, next: SagaSnapshot)
    requires Airborne(w) && x in w.busy && Landed(w, v, x, m) && w.busy[x].thread.OutcomeRead?
    requires Moves(w.busy[x].thread.snapshot, w.busy[x].thread.event)
    requires TypeOf(w.busy[x].thread.event) != INVENTORY_RESERVED
    requires next == Step(w.busy[x].thread.snapshot, w.busy[x].thread.event).snapshot
    ensures
      && Airborne(v) && NextThread(w.state, w.busy[x].thread, m) == Some(OutcomePublished(next))
      && v.busy == w.busy[x := Flight(OutcomePublished(next), w.busy[x].first)]
      && SameButThreads(w.state, v.state) && next.sagaId == x.orderId && Terminal(next.status)
      && next.currentStepIndex == w.busy[x].thread.snapshot.currentStepIndex
  {
    assert ThreadSlot(w.busy[x].thread) == x;
    FinalStep(w.busy[x].thread.snapshot, w.busy[x].thread.event);
    PublishNothing(w.state);
  }

  lemma FinalEventStep(w: World, v: World, x: Slot, m: Mint)
    requires Driven(w) && x in w.busy && Landed(w, v, x, m) && FlightOk(w, x) && w.busy[x].thread.OutcomeRead?
    requires w.busy[x].first && Moves(w.busy[x].thread.snapshot, w.busy[x].thread.event)
    requires TypeOf(w.busy[x].thread.event) != INVENTORY_RESERVED
    ensures Progresses(w, v) && NextWeight(NextThread(w.state, w.busy[x].thread, m)) == 6
    ensures NewTokens(w.state, v.state) == {}
  {
    hide Landed, Progresses, NextThread, ThreadEffect, NewTokens;
    var next := Step(w.busy[x].thread.snapshot, w.busy[x].thread.event).snapshot;
    assert ThreadSlot(w.busy[x].thread) == x;
    FinalLands(w, v, x, m, next);
    NothingNew(w.state, v.state);
    assert SagaOf(v, x.orderId) == Some(next) && Over(v, x.orderId);
    DeterminedProgresses(w, v, x, next, None);
  }

  /* ---- The first step of a delivery ---- */

  /** v is the world after a consumer took the token up, if that put a handler in flight or changed nothing. */
  ghost predicate TakenUp(w: World, v: World, t: Token, m: Mint, first: bool)
  {
    var u := FirstThread(w.state, t, m);
    && TokenSlot(t).Some? && TokenSlot(t).value !in w.busy && SameButThreads(w.state, v.state)
    && (u.Some? ==> Some(ThreadSlot(u.value)) == TokenSlot(t))
    && v.state.threads == w.state.threads + (if u.Some? then {u.value} else {})
    && v.busy == if u.Some? then w.busy[ThreadSlot(u.value) := Flight(u.value, first)] else w.busy
  }

  lemma TakeOffIsAirborne(w: World, v: World, x: Slot, u: Thread, first: bool)
    requires Airborne(w) && x !in w.busy && ThreadSlot(u) == x
    requires v.state.threads == w.state.threads + {u} && v.busy == w.busy[x := Flight(u, first)]
    ensures Airborne(v)
  {
    forall t ensures t in v.state.threads <==> t in Threads(v.busy) {
      if t == u { assert x in v.busy && v.busy[x].thread == t; }
      if y :| y in w.busy && w.busy[y].thread == t { assert y in v.busy && v.busy[y].thread == t; }
    }
  }

  /** A handler taking off into a free slot. */
  lemma TakeOffIsLocal(w: World, v: World, x: Slot, u: Thread, first: bool)
    requires SameButThreads(w.state, v.state) && x !in w.busy && v.busy == w.busy[x := Flight(u, first)]
    requires Determined(u).None?
    ensures Grows(w, v) && Local(w, v, Some(x)) && forall o :: SagaOf(v, o) == SagaOf(w, o)
  {
    forall o ensures SagaOf(v, o) == SagaOf(w, o) {}
    assert FactsOf(v.state) == FactsOf(w.state);
  }

  lemma TakeOffProgresses(w: World, v: World, x: Slot, u: Thread, first: bool)
    requires Driven(w) && SameButThreads(w.state, v.state) && x !in w.busy && ThreadSlot(u) == x
    requires v.state.threads == w.state.threads + {u} && v.busy == w.busy[x := Flight(u, first)]
    requires Determined(u).None? && FlightOk(v, x)
    requires PaymentIdOf(u).Some? ==> forall y :: y in w.busy ==> PaymentIdOf(w.busy[y].thread) != PaymentIdOf(u)
    ensures Progresses(w, v)
  {
    hide Progresses;
    TakeOffIsAirborne(w, v, x, u, first);
    TakeOffIsLocal(w, v, x, u, first);
    assert OrderDriven(w, x.orderId) && StockDriven(w, x.orderId) && Announced(w, x.orderId);
    forall p ensures PaymentDriven(v, p) { assert PaymentDriven(w, p); }
    forall y ensures Apart(v, x, y) && Apart(v, y, x) {}
    LocalProgresses(w, v, Some(x));
  }

  lemma StayingProgresses(w: World, v: World)
    requires Driven(w) && v.state == w.state && v.busy == w.busy
    ensures Progresses(w, v)
  {
    forall o ensures SagaOf(v, o) == SagaOf(w, o) {}
    LocalProgresses(w, v, None);
  }

  lemma FinishTaken(w: World, v: World, c: Command, m: Mint, first: bool)
    requires Driven(w) && c in w.state.commands && (c.ConfirmOrder? || c.CancelOrder?)
    requires TakenUp(w, v, Cmd(c), m, first)
    requires w.state.orders.Stream(c.orderId) != [] && (first || Handled(w, Cmd(c)))
    ensures Progresses(w, v) && Serving(v, Cmd(c)) && NextWeight(FirstThread(w.state, Cmd(c), m)) == 3
  {
    var u := CommandThread(w.state, c, m).value;
    var x := ThreadSlot(u);
    assert CommandDriven(w, c);
    assert SagaOf(v, c.orderId) == SagaOf(w, c.orderId);
    TakeOffProgresses(w, v, x, u, first);
  }

  lemma ReserveTaken(w: World, v: World, c: Command, m: Mint, first: bool)
    requires Driven(w) && c in w.state.commands && c.ReserveStock? && TakenUp(w, v, Cmd(c), m, first)
    requires Consistent(w.state.inventory.tables, SD.Replay) && (first || Handled(w, Cmd(c)))
    ensures Progresses(w, v) && (Handled(v, Cmd(c)) || Serving(v, Cmd(c)))
    ensures NextWeight(FirstThread(w.state, Cmd(c), m)) <= 18 && (!first ==> v.busy == w.busy)
  {
    assert CommandDriven(w, c);
    var next := CommandThread(w.state, c, m);
    if next.None? {
      StayingProgresses(w, v);
    } else {
      assert SagaOf(v, c.orderId) == SagaOf(w, c.orderId);
      TakeOffProgresses(w, v, ThreadSlot(next.value), next.value, first);
    }
  }

  lemma AuthorizeTaken(w: World, v: World, c: Command, m: Mint, first: bool)
    requires Driven(w) && c in w.state.commands && c.AuthorizePayment? && TakenUp(w, v, Cmd(c), m, first)
    requires Consistent(w.state.payments.tables, PD.Replay) && FactsOk(FactsOf(w.state))
    requires if first then FreshFor(w, m) else Handled(w, Cmd(c))
    ensures Progresses(w, v) && (Handled(v, Cmd(c)) || Serving(v, Cmd(c)))
    ensures NextWeight(FirstThread(w.state, Cmd(c), m)) <= 11 && (!first ==> v.busy == w.busy)
  {
    assert CommandDriven(w, c);
    PaymentIsFound(w.state, c.orderId);
    var next := CommandThread(w.state, c, m);
    assert FactsOf(v.state) == FactsOf(w.state);
    if next.None? {
      StayingProgresses(w, v);
    } else {
      assert SagaOf(v, c.orderId) == SagaOf(w, c.orderId);
      TakeOffProgresses(w, v, ThreadSlot(next.value), next.value, first);
    }
  }

  lemma CreatedTaken(w: World, v: World, e: Event, m: Mint, first: bool)
    requires Driven(w) && e.OrderEvt? && e.order.OrderCreated? && TakenUp(w, v, Evt(e), m, first)
    requires first || Handled(w, Evt(e))
    ensures Progresses(w, v) && (Handled(v, Evt(e)) || Serving(v, Evt(e)))
    ensures NextWeight(FirstThread(w.state, Evt(e), m)) <= 21 && (!first ==> v.busy == w.busy)
  {
    var next := EventThread(w.state, e);
    if next.None? {
      StayingProgresses(w, v);
    } else {
      assert SagaOf(w, e.order.orderId) == None;
      TakeOffProgresses(w, v, ThreadSlot(next.value), next.value, first);
    }
  }

  /** An event arrives at a saga that is waiting for it, that has passed it, or that is over. */
  lemma EventIsExpected(w: World, e: Event)
    requires FactsOk(FactsOf(w.state)) && EventOk(FactsOf(w.state), e) && TypeOf(e) != ORDER_CREATED
    requires Driven(w) && Slot(SagaConsumer, OrderOf(e)) !in w.busy
    requires OrderOf(e) in w.state.sagas ==>
               w.state.sagas[OrderOf(e)].sagaId == OrderOf(e) && SagaOk(FactsOf(w.state), w.state.sagas[OrderOf(e)])
    ensures OrderOf(e) in w.state.sagas
    ensures
      var sn := w.state.sagas[OrderOf(e)];
      Terminal(sn.status) || Moves(sn, e) || Passed(sn, e)
  {
    var f, o := FactsOf(w.state), OrderOf(e);
    assert SagaOf(w, o) == if o in w.state.sagas then Some(w.state.sagas[o]) else None;
    assert OrderDriven(w, o) && StockDriven(w, o);
    match e
    case OrderEvt(_) => assert OrderOk(f, o);
    case StockEvt(_) => assert StockOk(f, o);
    case PaymentEvt(p) => assert PaymentOk(f, p.paymentId) && PaymentDriven(w, p.paymentId);
  }

  lemma EventTaken(w: World, v: World, e: Event, m: Mint, first: bool)
    requires Driven(w) && !(e.OrderEvt? && e.order.OrderCreated?) && TakenUp(w, v, Evt(e), m, first)
    requires OrderOf(e) in w.state.sagas && w.state.sagas[OrderOf(e)].sagaId == OrderOf(e)
    requires
      var sn := w.state.sagas[OrderOf(e)];
      Terminal(sn.status) || Moves(sn, e) || Passed(sn, e)
    requires first || Handled(w, Evt(e))
    ensures Progresses(w, v) && (Handled(v, Evt(e)) || Serving(v, Evt(e)))
    ensures NextWeight(FirstThread(w.state, Evt(e), m)) < Rank(Evt(e))
  {
    var sn := w.state.sagas[OrderOf(e)];
    var next := EventThread(w.state, e);
    assert SagaOf(w, OrderOf(e)) == SagaOf(v, OrderOf(e)) == Some(sn);
    if next.None? {
      StayingProgresses(w, v);
    } else {
      assert next == Some(OutcomeRead(sn, e));
      TakeOffProgresses(w, v, ThreadSlot(next.value), next.value, first);
    }
  }

  lemma CreateProgresses(w: World, v: World, x: Slot, e: OrderEvent)
    requires Driven(w) && x.consumer == OrderConsumer && x !in w.busy && v.busy == w.busy
    requires w.state.orders.Stream(x.orderId) == [] && Extends(FactsOf(w.state), FactsOf(v.state))
    requires v.state == w.state.(orders := v.state.orders)
    requires v.state.orders.streams == w.state.orders.streams[x.orderId := [e]]
    requires v.state.orders.outbox == w.state.orders.outbox + [OutboxRow(x.orderId, e)]
    ensures Progresses(w, v)
  {
    SagasStay(w, v, x);
    ServiceProgresses(w, v, x);
  }

  /** CreateOrder is one step; a conflict with an existing order is a duplicate. */
  lemma CreateTaken(w: World, v: World, c: Command)
    requires Driven(w) && c.CreateOrder? && Slot(OrderConsumer, c.orderId) !in w.busy && v.busy == w.busy
    requires Consistent(w.state.orders, OD.Replay) && Extends(FactsOf(w.state), FactsOf(v.state))
    requires v.state == w.state.(orders := HandleCreate(w.state.orders, c.orderId, c.customerId, c.items))
    ensures Progresses(w, v) && Handled(v, Cmd(c))
    ensures Handled(w, Cmd(c)) ==> v.state == w.state
    ensures NewTokens(w.state, v.state) == {} || exists t :: NewTokens(w.state, v.state) == {t} && Rank(t) == 23
  {
    var e := OrderCreated(c.orderId, c.customerId, c.items, Total(c.items));
    SaveNextEffect(OrderService.NoClash, OD.Replay, w.state.orders, c.orderId, [], e);
    var x := Slot(OrderConsumer, c.orderId);
    assert [] + [e] == [e];
    if w.state.orders.Stream(c.orderId) == [] {
      OrderRowIsNew(w.state, v.state, OutboxRow(c.orderId, e));
      assert Rank(Row(OrderEvt(e))) == 23;
      CreateProgresses(w, v, x, e);
    } else {
      NothingNew(w.state, v.state);
      StayingProgresses(w, v);
    }
  }

  lemma RelayTaken(w: World, v: World, e: Event)
    requires Driven(w) && v.state == w.state.(events := w.state.events + {e}) && v.busy == w.busy
    ensures Progresses(w, v) && Handled(v, Row(e))
    ensures NewTokens(w.state, v.state) == if e in w.state.events then {} else {Evt(e)}
  {
    EventIsNew(w.state, e);
    forall o ensures SagaOf(v, o) == SagaOf(w, o) {}
    LocalProgresses(w, v, None);
  }
}

/** Whole calls: a delivery that runs its handler to the end before anything else happens, with the handlers the
    whole-call functions of the services and of the orchestrator. Such a call is one schedule of the system in
    Flights, so everything proved of its runs holds here. */
module SerialCheckout {
  import opened Basics
  import opened Contracts
  import opened Persistence
  import opened SagaToolkit
  import opened OrderFulfillment
  import opened OrderService
  import opened InventoryService
  import opened PaymentService
  import opened Checkout
  import opened CheckoutFacts
  import opened CheckoutInvariant
  import opened Flights
  import opened HandlerSteps
  import OD = OrderDomain
  import SD = StockDomain
  import PD = PaymentDomain

  /** Handling a command from beginning to end. A handler that throws changes nothing. */
  function HandleCommand(s: State, c: Command, m: Mint): State
  {
    match c
    case CreateOrder(o, customerId, items) => s.(orders := HandleCreate(s.orders, o, customerId, items))
    case ConfirmOrder(o, paymentId) => s.(orders := OkOr(HandleConfirm(s.orders, o, paymentId), s.orders))
    case CancelOrder(o, reason) => s.(orders := OkOr(HandleCancel(s.orders, o, reason), s.orders))
    case ReserveStock(o, lines) =>
      s.(inventory := OkOr(HandleReserve(s.inventory, o, lines, m.reservationId), s.inventory))
    case ReleaseInventory(o, _) => s.(inventory := OkOr(HandleRelease(s.inventory, o), s.inventory))
    case AuthorizePayment(o, _, amountCents) =>
      s.(payments := HandleAuthorize(s.payments, o, amountCents, m.paymentId, m.decision).0)
    case RefundPayment(_, p, _) =>
      s.(payments := s.payments.(tables := OkOr(HandleRefund(s.payments.tables, p), s.payments.tables)))
  }

  /** Handling an event in the orchestrator, from reading the saga row to the terminal publish. */
  function HandleEvent(s: State, e: Event): (r: State)
    requires RowsInRange(s.sagas)
    ensures RowsInRange(r.sagas)
  {
    var dispatched := Dispatch(s.sagas, e);
    Publish(s.(sagas := dispatched.rows), dispatched.published)
  }

  function Deliver(s: State, t: Token, m: Mint): (r: State)
    requires RowsInRange(s.sagas)
    ensures RowsInRange(r.sagas)
  {
    match t
    case Cmd(c) => HandleCommand(s, c, m)
    case Row(e) => s.(events := s.events + {e})
    case Evt(e) => HandleEvent(s, e)
  }

  /* ---- A whole call is the steps of its handler ---- */

  /** The databases and topics after a delivery's first step. */
  function FirstEffect(s: State, t: Token): State
  {
    match t
    case Cmd(CreateOrder(o, customerId, items)) => s.(orders := HandleCreate(s.orders, o, customerId, items))
    case Row(e) => s.(events := s.events + {e})
    case _ => s
  }

  /** A handler run on alone, for up to `steps` steps. */
  function Alone(s: State, u: Option<Thread>, m: Mint, steps: nat): State
    decreases steps
  {
    if u.None? || steps == 0 then s
    else Alone(ThreadEffect(s, u.value, m), NextThread(s, u.value, m), m, steps - 1)
  }

  lemma PublishMore(s: State, xs: seq<Command>, ys: seq<Command>)
    ensures Publish(s, xs + ys).commands == Publish(Publish(s, xs), ys).commands
  {
    forall c | c in Publish(Publish(s, xs), ys).commands ensures c in Publish(s, xs + ys).commands {
      if i :| 0 <= i < |xs| && xs[i] == c { assert (xs + ys)[i] == c; }
      if j :| 0 <= j < |ys| && ys[j] == c { assert (xs + ys)[|xs| + j] == c; }
    }
  }

  /** The orchestrator's three effects for a step outcome: publish, save, announce. */
  function Outcomes(s: State, stepped: Outcome<Context, Command>): State
  {
    var published := Publish(s, stepped.published);
    var saved := published.(sagas := s.sagas[stepped.snapshot.sagaId := stepped.snapshot]);
    Publish(saved, AsList(TerminalCommand(stepped.snapshot)))
  }

  lemma HandledOutcome(s: State, e: Event)
    requires RowsInRange(s.sagas) && !(e.OrderEvt? && e.order.OrderCreated?)
    requires OrderOf(e) in s.sagas && !Terminal(s.sagas[OrderOf(e)].status)
    ensures HandleEvent(s, e) == Outcomes(s, Step(s.sagas[OrderOf(e)], e))
  {
    var stepped := Step(s.sagas[OrderOf(e)], e);
    PublishMore(s, stepped.published, AsList(TerminalCommand(stepped.snapshot)));
  }

  lemma TwoStepsAlone(s: State, u: Thread, m: Mint)
    ensures
      var after, next := ThreadEffect(s, u, m), NextThread(s, u, m);
      && (next.None? ==> Alone(s, Some(u), m, 3) == after)
      && (next.Some? && NextThread(after, next.value, m).None? ==>
            Alone(s, Some(u), m, 3) == ThreadEffect(after, next.value, m))
  {
    var after, next := ThreadEffect(s, u, m), NextThread(s, u, m);
    assert Alone(s, Some(u), m, 3) == Alone(after, next, m, 2);
    if next.Some? && NextThread(after, next.value, m).None? {
      var last := ThreadEffect(after, next.value, m);
      assert Alone(after, next, m, 2) == Alone(last, None, m, 1) == last;
    }
  }

  lemma OrderCommandIsItsSteps(s: State, c: Command, m: Mint)
    requires c.CreateOrder? || c.ConfirmOrder? || c.CancelOrder?
    ensures HandleCommand(s, c, m) == Alone(FirstEffect(s, Cmd(c)), CommandThread(s, c, m), m, 3)
  {
    var u := CommandThread(s, c, m);
    if u.Some? { TwoStepsAlone(s, u.value, m); }
  }

  lemma StockCommandIsItsSteps(s: State, c: Command, m: Mint)
    requires c.ReserveStock? || c.ReleaseInventory?
    ensures HandleCommand(s, c, m) == Alone(FirstEffect(s, Cmd(c)), CommandThread(s, c, m), m, 3)
  {
    var u := CommandThread(s, c, m);
    if u.Some? { TwoStepsAlone(s, u.value, m); }
  }

  lemma RefundIsItsSteps(s: State, c: Command, m: Mint)
    requires c.RefundPayment?
    ensures HandleCommand(s, c, m) == Alone(FirstEffect(s, Cmd(c)), CommandThread(s, c, m), m, 3)
  {
    var u := CommandThread(s, c, m);
    if u.Some? { TwoStepsAlone(s, u.value, m); }
  }

  lemma AuthorizeIsItsSteps(s: State, c: Command, m: Mint)
    requires c.AuthorizePayment?
    ensures HandleCommand(s, c, m) == Alone(FirstEffect(s, Cmd(c)), CommandThread(s, c, m), m, 3)
  {
    hide SavePayment, ReplyFor, PaymentOutcome, HasPayment;
    if !HasPayment(s.payments.tables, c.orderId) {
      var u := AuthorizeChecked(c.orderId, c.amountCents, m.paymentId);
      var after, next := ThreadEffect(s, u, m), NextThread(s, u, m);
      assert next.Some? && next.value.AuthorizeAnswered?;
      assert ThreadEffect(after, next.value, m) == HandleCommand(s, c, m);
      TwoStepsAlone(s, u, m);
    }
  }

  lemma CommandIsItsSteps(s: State, c: Command, m: Mint)
    ensures HandleCommand(s, c, m) == Alone(FirstEffect(s, Cmd(c)), CommandThread(s, c, m), m, 3)
  {
    match c
    case CreateOrder(_, _, _) => OrderCommandIsItsSteps(s, c, m);
    case ConfirmOrder(_, _) => OrderCommandIsItsSteps(s, c, m);
    case CancelOrder(_, _) => OrderCommandIsItsSteps(s, c, m);
    case ReserveStock(_, _) => StockCommandIsItsSteps(s, c, m);
    case ReleaseInventory(_, _) => StockCommandIsItsSteps(s, c, m);
    case AuthorizePayment(_, _, _) => AuthorizeIsItsSteps(s, c, m);
    case RefundPayment(_, _, _) => RefundIsItsSteps(s, c, m);
  }

  lemma CreatedIsItsSteps(s: State, e: Event, m: Mint)
    requires RowsInRange(s.sagas) && e.OrderEvt? && e.order.OrderCreated?
    ensures HandleEvent(s, e) == Alone(s, EventThread(s, e), m, 3)
  {
    if e.order.orderId in s.sagas {
      assert HandleEvent(s, e).commands == s.commands;
    } else {
      var begun := BeginFor(e.order);
      assert begun.published == [begun.published[0]];
      assert HandleEvent(s, e).commands == s.commands + {begun.published[0]};
      TwoStepsAlone(s, StartChecked(e.order), m);
    }
  }

  lemma OutcomeIsItsSteps(s: State, e: Event, m: Mint)
    requires RowsInRange(s.sagas) && !(e.OrderEvt? && e.order.OrderCreated?)
    requires OrderOf(e) in s.sagas && !Terminal(s.sagas[OrderOf(e)].status)
    ensures HandleEvent(s, e) == Alone(s, EventThread(s, e), m, 3)
  {
    var stepped := Step(s.sagas[OrderOf(e)], e);
    var published := Publish(s, stepped.published);
    var saved := published.(sagas := s.sagas[stepped.snapshot.sagaId := stepped.snapshot]);
    HandledOutcome(s, e);
    PublishAsList(saved, TerminalCommand(stepped.snapshot));
    var u, v := OutcomePublished(stepped.snapshot), OutcomeSaved(stepped.snapshot);
    assert Alone(s, EventThread(s, e), m, 3) == Alone(published, Some(u), m, 2);
    if Terminal(stepped.snapshot.status) {
      assert Alone(published, Some(u), m, 2) == Alone(saved, Some(v), m, 1) == ThreadEffect(saved, v, m);
    } else {
      assert Alone(published, Some(u), m, 2) == Alone(saved, None, m, 1) == saved;
    }
  }

  /** Handling a message in one go is running its handler's steps with nothing in between. */
  lemma WholeCallIsItsSteps(s: State, t: Token, m: Mint)
    requires RowsInRange(s.sagas)
    ensures Deliver(s, t, m) == Alone(FirstEffect(s, t), FirstThread(s, t, m), m, 3)
  {
    match t
    case Cmd(c) => CommandIsItsSteps(s, c, m);
    case Row(e) =>
    case Evt(e) =>
      if e.OrderEvt? && e.order.OrderCreated? { CreatedIsItsSteps(s, e, m); }
      else if OrderOf(e) in s.sagas && !Terminal(s.sagas[OrderOf(e)].status) { OutcomeIsItsSteps(s, e, m); }
      else { assert HandleEvent(s, e).commands == s.commands; }
  }

  /* ---- A whole call is a schedule of a crash-free run ---- */

  /** Runs the handler in a slot on, up to `steps` steps, with nothing else happening. */
  function RunOut(w: World, x: Slot, m: Mint, steps: nat): World
    decreases steps
  {
    if steps == 0 || x !in w.busy then w else RunOut(Happen(w, Proceed(x, m)), x, m, steps - 1)
  }

  lemma EffectIgnoresThreads(s: State, u: Thread, m: Mint, threads: set<Thread>)
    ensures ThreadEffect(s.(threads := threads), u, m) == ThreadEffect(s, u, m).(threads := threads)
    ensures NextThread(s.(threads := threads), u, m) == NextThread(s, u, m)
  {
  }

  function InFlight(u: Option<Thread>): map<Slot, Flight>
  {
    if u.None? then map[] else map[ThreadSlot(u.value) := Flight(u.value, true)]
  }

  /** The state s with the handler u, if any, alone in flight. */
  predicate Only(w: World, s: State, u: Option<Thread>)
  {
    w.state == s.(threads := if u.Some? then {u.value} else {}) && w.busy == InFlight(u)
  }

  /** A handler alone in flight, one step on. */
  lemma RunsOn(w: World, s: State, u: Thread, m: Mint)
    requires Only(w, s, Some(u))
    ensures Only(Happen(w, Proceed(ThreadSlot(u), m)), ThreadEffect(s, u, m), NextThread(s, u, m))
  {
    var x, next := ThreadSlot(u), NextThread(s, u, m);
    EffectIgnoresThreads(s, u, m, {u});
    EffectKeepsThreads(s, u, m);
    assert w.busy - {x} == map[];
    if next.Some? {
      NextStaysInSlot(s, u, m);
      assert {u} + {next.value} - {u} == {next.value};
    } else {
      assert {u} - {u} == {};
    }
  }

  lemma {:induction false} RunsOut(w: World, s: State, u: Option<Thread>, x: Slot, m: Mint, steps: nat)
    requires Only(w, s, u) && s.threads == {} && (u.Some? ==> ThreadSlot(u.value) == x)
    ensures RunOut(w, x, m, steps).state.(threads := {}) == Alone(s, u, m, steps)
    decreases steps
  {
    if u.Some? && steps > 0 {
      var next := NextThread(s, u.value, m);
      RunsOn(w, s, u.value, m);
      EffectKeepsThreads(s, u.value, m);
      if next.Some? { NextStaysInSlot(s, u.value, m); }
      RunsOut(Happen(w, Proceed(x, m)), ThreadEffect(s, u.value, m), next, x, m, steps - 1);
    }
  }

  /** Every whole-call delivery is a schedule: the message taken up and its handler proceeding with nothing else in
      between. Runs that handle one message at a time are thus among the crash-free runs. */
  lemma DeliveryIsASchedule(w: World, t: Token, m: Mint, x: Slot)
    requires RowsInRange(w.state.sagas) && w.busy == map[] && w.state.threads == {} && Published(w.state, t)
    requires FirstThread(w.state, t, m).Some? ==> ThreadSlot(FirstThread(w.state, t, m).value) == x
    ensures RunOut(TakeUp(w, t, m, true), x, m, 3).state.(threads := {}) == Deliver(w.state, t, m)
  {
    var v := TakeUp(w, t, m, true);
    assert Only(v, FirstEffect(w.state, t), FirstThread(w.state, t, m));
    WholeCallIsItsSteps(w.state, t, m);
    RunsOut(v, FirstEffect(w.state, t), FirstThread(w.state, t, m), x, m, 3);
  }
}

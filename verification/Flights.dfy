/** Crash-free runs of the composed system, on its own actions. Every consumer takes the messages of one order
    one at a time; handlers of different orders, and of different consumers for the same order, interleave
    between every two of their steps. Messages already handled may be delivered again. */
module Flights {
  import opened Basics
  import opened Contracts
  import opened Persistence
  import opened SagaToolkit
  import StockLedger
  import opened OrderFulfillment
  import opened Checkout
  import opened CheckoutFacts
  import opened CheckoutInvariant

  /** Something outstanding: a command on saga.commands, an outbox row to relay, an event on an event topic. */
  datatype Token = Cmd(command: Command) | Row(event: Event) | Evt(event: Event)

  /** The token stands for something really there. */
  predicate Published(s: State, t: Token)
  {
    match t
    case Cmd(c) => c in s.commands
    case Row(e) => InOutbox(s, e)
    case Evt(e) => e in s.events
  }

  function RowsSince<E>(before: seq<OutboxRow<E>>, after: seq<OutboxRow<E>>): set<E>
  {
    set k | |before| <= k < |after| :: after[k].event
  }

  /** What a step newly put in an outbox or on a topic. */
  function NewTokens(s: State, after: State): set<Token>
  {
    (set e | e in RowsSince(s.orders.outbox, after.orders.outbox) :: Row(OrderEvt(e)))
    + (set e | e in RowsSince(s.inventory.tables.outbox, after.inventory.tables.outbox) :: Row(StockEvt(e)))
    + (set e | e in RowsSince(s.payments.tables.outbox, after.payments.tables.outbox) :: Row(PaymentEvt(e)))
    + (set e | e in after.events && e !in s.events :: Evt(e))
    + (set c | c in after.commands && c !in s.commands :: Cmd(c))
  }

  /* ---- One handler at a time per consumer and order ---- */

  datatype Consumer = OrderConsumer | StockConsumer | PaymentConsumer | SagaConsumer

  datatype Slot = Slot(consumer: Consumer, orderId: OrderId)

  /** Relaying a row needs no consumer. */
  function TokenSlot(t: Token): Option<Slot>
  {
    match t
    case Row(_) => None
    case Evt(e) => Some(Slot(SagaConsumer, OrderOf(e)))
    case Cmd(c) =>
      if c.ReserveStock? || c.ReleaseInventory? then Some(Slot(StockConsumer, c.orderId))
      else if c.AuthorizePayment? || c.RefundPayment? then Some(Slot(PaymentConsumer, c.orderId))
      else Some(Slot(OrderConsumer, c.orderId))
  }

  function ThreadSlot(t: Thread): Slot
  {
    match t
    case ConfirmLoaded(o, _, _) => Slot(OrderConsumer, o)
    case CancelLoaded(o, _, _) => Slot(OrderConsumer, o)
    case ReserveChecked(o, _) => Slot(StockConsumer, o)
    case ReserveRefused(o, _) => Slot(StockConsumer, o)
    case ReleaseLoaded(o, _) => Slot(StockConsumer, o)
    case AuthorizeChecked(o, _, _) => Slot(PaymentConsumer, o)
    case AuthorizeAnswered(o, _, _, _) => Slot(PaymentConsumer, o)
    case RefundLoaded(_, loaded) => Slot(PaymentConsumer, if loaded == [] then 0 else loaded[0].orderId)
    case StartChecked(created) => Slot(SagaConsumer, created.orderId)
    case StartPublished(sn) => Slot(SagaConsumer, sn.sagaId)
    case OutcomeRead(sn, _) => Slot(SagaConsumer, sn.sagaId)
    case OutcomePublished(sn) => Slot(SagaConsumer, sn.sagaId)
    case OutcomeSaved(sn) => Slot(SagaConsumer, sn.sagaId)
  }

  /** A handler in flight; `first` if it is the first to handle its message. */
  datatype Flight = Flight(thread: Thread, first: bool)

  datatype World = World(state: State, pending: set<Token>, busy: map<Slot, Flight>)

  /** A customer's order; the first delivery of something outstanding; a duplicate of something handled; the next
      step of a handler. */
  datatype Happening =
    | Submit(order: Command)
    | Take(token: Token, mint: Mint)
    | Again(token: Token, mint: Mint)
    | Proceed(slot: Slot, mint: Mint)

  function FirstAction(t: Token, m: Mint): Action
  {
    match t
    case Cmd(c) => Receive(c, m)
    case Row(e) => Relay(e)
    case Evt(e) => Observe(e)
  }

  function FirstThread(s: State, t: Token, m: Mint): Option<Thread>
  {
    match t
    case Cmd(c) => CommandThread(s, c, m)
    case Row(_) => None
    case Evt(e) => EventThread(s, e)
  }

  predicate Idle(w: World, t: Token) { TokenSlot(t).None? || TokenSlot(t).value !in w.busy }

  function PaymentIdOf(t: Thread): Option<PaymentId>
  {
    if t.AuthorizeChecked? || t.AuthorizeAnswered? then Some(t.paymentId) else None
  }

  /** The payment id a step mints is a fresh uuid: neither stored nor minted by a handler in flight. */
  predicate FreshFor(w: World, m: Mint)
  {
    && m.paymentId !in w.state.payments.tables.streams
    && forall slot :: slot in w.busy ==> PaymentIdOf(w.busy[slot].thread) != Some(m.paymentId)
  }

  function Board(busy: map<Slot, Flight>, next: Option<Thread>, first: bool): map<Slot, Flight>
  {
    if next.None? then busy else busy[ThreadSlot(next.value) := Flight(next.value, first)]
  }

  function TakeUp(w: World, t: Token, m: Mint, first: bool): World
  {
    var after := Do(w.state, FirstAction(t, m));
    World(after, w.pending - {t} + NewTokens(w.state, after), Board(w.busy, FirstThread(w.state, t, m), first))
  }

  /** The next step of the handler in a slot; it then stands at its new position, or its slot is free. */
  function Move(w: World, slot: Slot, m: Mint): World
    requires slot in w.busy
  {
    var flight := w.busy[slot];
    var after := Do(Do(w.state, Continue(flight.thread, m)), Drop(flight.thread));
    World(after, w.pending + NewTokens(w.state, after),
          Board(w.busy - {slot}, NextThread(w.state, flight.thread, m), flight.first))
  }

  function Happen(w: World, h: Happening): World
  {
    match h
    case Submit(c) =>
      if c.CreateOrder? && c !in w.state.commands then
        World(Do(w.state, Issue(c)), w.pending + {Cmd(c)}, w.busy)
      else w
    case Take(t, m) => if t in w.pending && Idle(w, t) && FreshFor(w, m) then TakeUp(w, t, m, true) else w
    case Again(t, m) => if Published(w.state, t) && t !in w.pending && Idle(w, t) then TakeUp(w, t, m, false) else w
    case Proceed(slot, m) => if slot in w.busy then Move(w, slot, m) else w
  }

  function Play(levels: StockLedger.Levels, events: seq<Happening>): World
  {
    if events == [] then World(Init(levels), {}, map[])
    else Happen(Play(levels, events[..|events| - 1]), events[|events| - 1])
  }

  /* ---- Every such run is a run of the interleaved system ---- */

  ghost predicate Reaches(s: State, t: State) { exists actions :: Exec(s, actions) == t }

  lemma {:induction false} ExecConcat(s: State, xs: seq<Action>, ys: seq<Action>)
    ensures Exec(s, xs + ys) == Exec(Exec(s, xs), ys)
    decreases |ys|
  {
    if ys == [] {
      assert xs + ys == xs;
    } else {
      assert (xs + ys)[..|xs + ys| - 1] == xs + ys[..|ys| - 1];
      ExecConcat(s, xs, ys[..|ys| - 1]);
    }
  }

  lemma ReachesNow(s: State)
    ensures Reaches(s, s)
  {
    assert Exec(s, []) == s;
  }

  lemma ReachesThen(s: State, t: State, a: Action)
    requires Reaches(s, t)
    ensures Reaches(s, Do(t, a))
  {
    var actions :| Exec(s, actions) == t;
    assert (actions + [a])[..|actions|] == actions;
    assert Exec(s, actions + [a]) == Do(t, a);
  }

  /** Serial handling per order is a special case of the interleaved system, so whatever is proved of all its
      runs holds. */
  lemma {:induction false} PlaysAreRuns(levels: StockLedger.Levels, events: seq<Happening>)
    ensures Reaches(Init(levels), Play(levels, events).state)
    decreases |events|
  {
    if events == [] {
      ReachesNow(Init(levels));
    } else {
      var w := Play(levels, events[..|events| - 1]);
      PlaysAreRuns(levels, events[..|events| - 1]);
      match events[|events| - 1]
      case Submit(c) => ReachesThen(Init(levels), w.state, Issue(c));
      case Take(t, m) => ReachesThen(Init(levels), w.state, FirstAction(t, m));
      case Again(t, m) => ReachesThen(Init(levels), w.state, FirstAction(t, m));
      case Proceed(slot, m) =>
        if slot in w.busy {
          var u := w.busy[slot].thread;
          ReachesThen(Init(levels), w.state, Continue(u, m));
          ReachesThen(Init(levels), Do(w.state, Continue(u, m)), Drop(u));
        }
    }
  }
}

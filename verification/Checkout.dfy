/** The composed protocol: three services, the orchestrator and the payment gateway, as one transition system.
    Messages are delivered any number of times in any order, handlers of any number of replicas interleave
    between their database and network steps, and any of them may crash at any point. */
module Checkout {
  import opened Basics
  import opened Contracts
  import opened Persistence
  import opened StockLedger
  import opened SagaToolkit
  import opened OrderFulfillment
  import opened OrderService
  import opened InventoryService
  import opened PaymentService
  import OD = OrderDomain
  import SD = StockDomain
  import PD = PaymentDomain

  /** A handler between two of its steps, with everything it has read so far. */
  datatype Thread =
    | ConfirmLoaded(orderId: OrderId, confirmedPaymentId: Option<PaymentId>, orderEvents: seq<OrderEvent>)
    | CancelLoaded(orderId: OrderId, cancelReason: string, orderEvents: seq<OrderEvent>)
    | ReserveChecked(orderId: OrderId, lines: seq<ReservationLine>)
    | ReserveRefused(orderId: OrderId, shortage: Shortage)
    | ReleaseLoaded(orderId: OrderId, stockEvents: seq<StockEvent>)
    | AuthorizeChecked(orderId: OrderId, amountCents: int, paymentId: PaymentId)
    | AuthorizeAnswered(orderId: OrderId, amountCents: int, paymentId: PaymentId, reply: GatewayReply)
    | RefundLoaded(paymentId: PaymentId, paymentEvents: seq<PaymentEvent>)
    | StartChecked(created: OrderEvent)
    | StartPublished(snapshot: SagaSnapshot)
    | OutcomeRead(snapshot: SagaSnapshot, event: Event)
    | OutcomePublished(snapshot: SagaSnapshot)
    | OutcomeSaved(snapshot: SagaSnapshot)

  /** `events` and `commands` are everything ever put on the topics. A thread stays in `threads` until it is
      dropped, so that replicas that reached the same point are all covered. */
  datatype State = State(orders: OrderTables, inventory: Inventory, payments: Payments,
                         events: set<Event>, commands: set<Command>, sagas: SagaRows, threads: set<Thread>)

  /** What a step mints, and what the gateway decides if this is the first it hears of the order. */
  datatype Mint = Mint(reservationId: ReservationId, paymentId: PaymentId, decision: Decision)

  datatype Action =
    | Issue(command: Command)
    | Receive(command: Command, mint: Mint)
    | Continue(thread: Thread, mint: Mint)
    | Relay(event: Event)
    | Observe(event: Event)
    | Drop(thread: Thread)

  function Spawn(s: State, t: Thread): State { s.(threads := s.threads + {t}) }

  function OkOr<A, E>(r: Result<A, E>, default: A): A { if r.Ok? then r.value else default }

  /** A handler that goes on is at its next position; one that is done leaves nothing behind. */
  function Launch(s: State, next: Option<Thread>): State { if next.Some? then Spawn(s, next.value) else s }

  /** The first step of a command handler: the whole of CreateOrder, the initial read of the others. A command
      whose aggregate does not exist throws; one whose effect is already recorded is skipped. */
  function CommandThread(s: State, c: Command, m: Mint): Option<Thread>
  {
    match c
    case CreateOrder(_, _, _) => None
    case ConfirmOrder(orderId, paymentId) =>
      var loaded := s.orders.Stream(orderId);
      if loaded == [] then None else Some(ConfirmLoaded(orderId, paymentId, loaded))
    case CancelOrder(orderId, reason) =>
      var loaded := s.orders.Stream(orderId);
      if loaded == [] then None else Some(CancelLoaded(orderId, reason, loaded))
    case ReserveStock(orderId, lines) =>
      if orderId in s.inventory.tables.rows then None else Some(ReserveChecked(orderId, lines))
    case ReleaseInventory(orderId, _) =>
      var loaded := s.inventory.tables.Stream(orderId);
      if loaded == [] then None else Some(ReleaseLoaded(orderId, loaded))
    case AuthorizePayment(orderId, _, amountCents) =>
      if HasPayment(s.payments.tables, orderId) then None else Some(AuthorizeChecked(orderId, amountCents, m.paymentId))
    case RefundPayment(_, paymentId, _) =>
      var loaded := s.payments.tables.Stream(paymentId);
      if loaded == [] then None else Some(RefundLoaded(paymentId, loaded))
  }

  function ReceiveCommand(s: State, c: Command, m: Mint): State
  {
    if c.CreateOrder? then s.(orders := HandleCreate(s.orders, c.orderId, c.customerId, c.items))
    else Launch(s, CommandThread(s, c, m))
  }

  function WithPayments(s: State, saved: Option<PaymentTables>): State
  {
    if saved.None? then s else s.(payments := s.payments.(tables := saved.value))
  }

  function BeginFor(created: OrderEvent): Outcome<Context, Command>
    requires created.OrderCreated?
  {
    Begin(created.orderId, created.customerId, ReservationLines(created.items), created.totalCents)
  }

  function Publish(s: State, published: seq<Command>): State
  {
    s.(commands := s.commands + (set k | 0 <= k < |published| :: published[k]))
  }

  /** What the next step of a handler does to the databases, the gateway and the topics. A transaction that
      fails leaves no trace. */
  function ThreadEffect(s: State, t: Thread, m: Mint): State
  {
    match t
    case ConfirmLoaded(orderId, paymentId, loaded) =>
      s.(orders := OkOr(FinishOrder(s.orders, orderId, loaded, OD.Confirming(orderId, OD.Replay(loaded), paymentId)),
                        s.orders))
    case CancelLoaded(orderId, reason, loaded) =>
      s.(orders := OkOr(FinishOrder(s.orders, orderId, loaded, OD.Cancelling(orderId, OD.Replay(loaded), reason)),
                        s.orders))
    case ReserveChecked(orderId, lines) =>
      s.(inventory := OkOr(ReserveTransaction(s.inventory, orderId, m.reservationId, lines), s.inventory))
    case ReserveRefused(orderId, shortage) =>
      s.(inventory := OkOr(FailureTransaction(s.inventory, orderId, shortage), s.inventory))
    case ReleaseLoaded(orderId, loaded) =>
      s.(inventory := OkOr(ReleaseTransaction(s.inventory, orderId, loaded), s.inventory))
    case AuthorizeChecked(orderId, amountCents, _) =>
      var reply := ReplyFor(s.payments.gateway, orderId, amountCents, m.decision);
      s.(payments := s.payments.(gateway := s.payments.gateway[orderId := reply]))
    case AuthorizeAnswered(orderId, amountCents, paymentId, reply) =>
      var outcome := PaymentOutcome(paymentId, orderId, amountCents, reply);
      WithPayments(s, SavePayment(s.payments.tables, paymentId, [], outcome))
    case RefundLoaded(paymentId, loaded) =>
      var refund := PD.Refunding(paymentId, PD.Replay(loaded), REFUND_REASON);
      if refund.None? then s else WithPayments(s, SavePayment(s.payments.tables, paymentId, loaded, refund.value))
    case StartChecked(created) =>
      if !created.OrderCreated? then s else s.(commands := s.commands + {BeginFor(created).published[0]})
    case StartPublished(snapshot) => s.(sagas := s.sagas[snapshot.sagaId := snapshot])
    case OutcomeRead(snapshot, event) =>
      if snapshot.currentStepIndex >= 2 then s else Publish(s, Step(snapshot, event).published)
    case OutcomePublished(snapshot) => s.(sagas := s.sagas[snapshot.sagaId := snapshot])
    case OutcomeSaved(snapshot) =>
      s.(commands := s.commands + (if TerminalCommand(snapshot).Some? then {TerminalCommand(snapshot).value} else {}))
  }

  /** Where a handler stands after its next step, if it is not done. */
  function NextThread(s: State, t: Thread, m: Mint): Option<Thread>
  {
    match t
    case ReserveChecked(orderId, lines) =>
      var reserved := ReserveTransaction(s.inventory, orderId, m.reservationId, lines);
      if reserved.Err? && reserved.error.Insufficient? then Some(ReserveRefused(orderId, reserved.error.shortage))
      else None
    case AuthorizeChecked(orderId, amountCents, paymentId) =>
      var reply := ReplyFor(s.payments.gateway, orderId, amountCents, m.decision);
      Some(AuthorizeAnswered(orderId, amountCents, paymentId, reply))
    case StartChecked(created) =>
      if !created.OrderCreated? then None else Some(StartPublished(BeginFor(created).snapshot))
    case OutcomeRead(snapshot, event) =>
      if snapshot.currentStepIndex >= 2 then None else Some(OutcomePublished(Step(snapshot, event).snapshot))
    case OutcomePublished(snapshot) => if Terminal(snapshot.status) then Some(OutcomeSaved(snapshot)) else None
    case _ => None
  }

  function ContinueThread(s: State, t: Thread, m: Mint): State { Launch(ThreadEffect(s, t, m), NextThread(s, t, m)) }

  predicate InOutbox(s: State, e: Event)
  {
    match e
    case OrderEvt(o) => exists k :: 0 <= k < |s.orders.outbox| && s.orders.outbox[k].event == o
    case StockEvt(x) => exists k :: 0 <= k < |s.inventory.tables.outbox| && s.inventory.tables.outbox[k].event == x
    case PaymentEvt(p) => exists k :: 0 <= k < |s.payments.tables.outbox| && s.payments.tables.outbox[k].event == p
  }

  /** The first step of the orchestrator's handler: reading the saga row. */
  function EventThread(s: State, e: Event): Option<Thread>
  {
    if e.OrderEvt? && e.order.OrderCreated? then
      if e.order.orderId in s.sagas then None else Some(StartChecked(e.order))
    else if OrderOf(e) in s.sagas && !Terminal(s.sagas[OrderOf(e)].status) then
      Some(OutcomeRead(s.sagas[OrderOf(e)], e))
    else None
  }

  function ObserveEvent(s: State, e: Event): State { Launch(s, EventThread(s, e)) }

  /** Commands that do not come from the orchestrator: customers' orders, and operators' releases and refunds. */
  predicate FromOutside(c: Command) { c.CreateOrder? || c.ReleaseInventory? || c.RefundPayment? }

  function Do(s: State, a: Action): State
  {
    match a
    case Issue(c) => if FromOutside(c) then s.(commands := s.commands + {c}) else s
    case Receive(c, m) => if c in s.commands then ReceiveCommand(s, c, m) else s
    case Continue(t, m) => if t in s.threads then ContinueThread(s, t, m) else s
    case Relay(e) => if InOutbox(s, e) then s.(events := s.events + {e}) else s
    case Observe(e) => if e in s.events then ObserveEvent(s, e) else s
    case Drop(t) => s.(threads := s.threads - {t})
  }

  function Init(levels: Levels): State
  {
    State(Tables(map[], map[], []), Inventory(Tables(map[], map[], []), levels),
          Payments(Tables(map[], map[], []), map[]),
          {}, {}, map[], {})
  }

  function Exec(s: State, actions: seq<Action>): State
  {
    if actions == [] then s else Do(Exec(s, actions[..|actions| - 1]), actions[|actions| - 1])
  }
}

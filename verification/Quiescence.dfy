/** Crash-free runs with each consumer handling the messages of an order one at a time: they terminate, no
    handler throws, and when nothing is left to do every accepted order is decided. */
module Quiescence {
  import opened Basics
  import opened Contracts
  import opened Persistence
  import opened StockLedger
  import opened OrderFulfillment
  import opened OrderService
  import opened InventoryService
  import opened PaymentService
  import opened Checkout
  import opened CheckoutFacts
  import opened CheckoutInvariant
  import opened CheckoutTheorems
  import opened CheckoutStock
  import opened Flights
  import opened Progress
  import opened HandlerSteps
  import OD = OrderDomain
  import SD = StockDomain
  import PD = PaymentDomain

  /** Everything ever published is outstanding, being handled, or has had its effect. */
  ghost predicate Settled(w: World)
  {
    && (forall t :: t in w.pending ==> Published(w.state, t))
    && (forall t :: Published(w.state, t) && t !in w.pending ==> Handled(w, t) || Serving(w, t))
  }

  ghost predicate Good(w: World) { Inv(w.state) && Driven(w) && Settled(w) }

  /* ---- The work that is left ---- */

  /** What a handler in flight counts for: handlers of duplicates only if `all` are counted. */
  function Burden(f: Flight, all: bool): nat { if f.first || all then Weight(f.thread) else 0 }

  ghost function Waiting(tokens: set<Token>): int { Sum(tokens, t => Rank(t)) }

  ghost function Aloft(busy: map<Slot, Flight>, all: bool): int
  {
    Sum(busy.Keys, x => if x in busy then Burden(busy[x], all) else 0)
  }

  ghost function Work(w: World, all: bool): int { Waiting(w.pending) + Aloft(w.busy, all) }

  lemma WaitingWithout(tokens: set<Token>, t: Token)
    requires t in tokens
    ensures Waiting(tokens) == Rank(t) + Waiting(tokens - {t})
  {
    SumExtract(tokens, u => Rank(u), t);
  }

  lemma WaitingWith(tokens: set<Token>, more: set<Token>, bound: nat)
    requires more == {} || exists t :: more == {t} && Rank(t) <= bound
    ensures Waiting(tokens + more) <= Waiting(tokens) + bound
    ensures more == {} ==> Waiting(tokens + more) == Waiting(tokens)
  {
    if more <= tokens {
      assert tokens + more == tokens;
    } else {
      var t :| more == {t} && Rank(t) <= bound;
      WaitingWithout(tokens + more, t);
      assert tokens + more - {t} == tokens;
    }
  }

  lemma AloftBoarding(busy: map<Slot, Flight>, x: Slot, f: Flight, all: bool)
    requires x !in busy
    ensures Aloft(busy[x := f], all) == Aloft(busy, all) + Burden(f, all)
  {
    var after := busy[x := f];
    assert after.Keys == busy.Keys + {x};
    SumUpdate(busy.Keys, y => if y in busy then Burden(busy[y], all) else 0,
              y => if y in after then Burden(after[y], all) else 0, x);
  }

  lemma AloftLeaving(busy: map<Slot, Flight>, x: Slot, all: bool)
    requires x in busy
    ensures Aloft(busy, all) == Burden(busy[x], all) + Aloft(busy - {x}, all)
  {
    AloftBoarding(busy - {x}, x, busy[x], all);
    assert (busy - {x})[x := busy[x]] == busy;
  }

  lemma WorkIsNonNegative(w: World, all: bool)
    ensures Waiting(w.pending) >= 0 && Aloft(w.busy, all) >= 0 && Work(w, all) >= 0
  {
    SumNonNegative(w.pending, t => Rank(t));
    SumNonNegative(w.busy.Keys, x => if x in w.busy then Burden(w.busy[x], all) else 0);
  }

  /* ---- Nothing published is forgotten ---- */

  lemma StillPublished(s: State, after: State, t: Token)
    requires Published(s, t) && s.events <= after.events && s.commands <= after.commands && OutboxesGrow(s, after)
    ensures Published(after, t)
  {
    match t
    case Cmd(c) =>
    case Evt(e) =>
    case Row(OrderEvt(x)) =>
      var k :| 0 <= k < |s.orders.outbox| && s.orders.outbox[k].event == x;
      assert after.orders.outbox[k].event == x;
    case Row(StockEvt(x)) =>
      var k :| 0 <= k < |s.inventory.tables.outbox| && s.inventory.tables.outbox[k].event == x;
      assert after.inventory.tables.outbox[k].event == x;
    case Row(PaymentEvt(x)) =>
      var k :| 0 <= k < |s.payments.tables.outbox| && s.payments.tables.outbox[k].event == x;
      assert after.payments.tables.outbox[k].event == x;
  }

  lemma RowWasThereOrIsNew<E>(before: seq<OutboxRow<E>>, after: seq<OutboxRow<E>>, e: E)
    requires before <= after && exists k :: 0 <= k < |after| && after[k].event == e
    ensures e in RowsSince(before, after) || exists k :: 0 <= k < |before| && before[k].event == e
  {
    var k :| 0 <= k < |after| && after[k].event == e;
    if k < |before| { assert before[k].event == e; }
  }

  /** NewTokens misses nothing. */
  lemma PublishedBeforeOrNew(s: State, after: State, t: Token)
    requires Published(after, t) && OutboxesGrow(s, after)
    ensures Published(s, t) || t in NewTokens(s, after)
  {
    match t
    case Cmd(c) =>
    case Evt(e) =>
    case Row(OrderEvt(x)) => RowWasThereOrIsNew(s.orders.outbox, after.orders.outbox, x);
    case Row(StockEvt(x)) => RowWasThereOrIsNew(s.inventory.tables.outbox, after.inventory.tables.outbox, x);
    case Row(PaymentEvt(x)) => RowWasThereOrIsNew(s.payments.tables.outbox, after.payments.tables.outbox, x);
  }

  lemma NewIsPublished(s: State, after: State, t: Token)
    requires t in NewTokens(s, after)
    ensures Published(after, t)
  {
  }

  /** A step that makes progress, and has taken up at most one token, leaves nothing forgotten. */
  lemma ProgressKeepsSettled(w: World, v: World, taken: set<Token>)
    requires Settled(w) && Progresses(w, v) && FactsOk(FactsOf(v.state))
    requires v.pending == w.pending - taken + NewTokens(w.state, v.state)
    requires forall t :: t in taken ==> Handled(v, t) || Serving(v, t)
    ensures Settled(v)
  {
    forall t | t in v.pending ensures Published(v.state, t) {
      if t in w.pending { StillPublished(w.state, v.state, t); } else { NewIsPublished(w.state, v.state, t); }
    }
    forall t | Published(v.state, t) && t !in v.pending ensures Handled(v, t) || Serving(v, t) {
      PublishedBeforeOrNew(w.state, v.state, t);
      if t !in taken && !Serving(w, t) { HandledStays(w, v, t); }
    }
  }

  /* ---- A handler's next step ---- */

  /** What one step of a handler comes to: order is kept, and a first handling comes closer to its end while a
      duplicate changes no table, saga row or topic. */
  ghost predicate Stepped(w: World, v: World, x: Slot, m: Mint)
    requires x in w.busy
  {
    && Progresses(w, v)
    && Lighter(NewTokens(w.state, v.state), NextThread(w.state, w.busy[x].thread, m), Weight(w.busy[x].thread))
    && (!w.busy[x].first ==> SameButThreads(w.state, v.state))
  }

  lemma OrderStep(w: World, v: World, x: Slot, m: Mint)
    requires Driven(w) && x in w.busy && Landed(w, v, x, m) && FlightOk(w, x) && x.consumer == OrderConsumer
    requires Consistent(w.state.orders, OD.Replay) && OrderOk(FactsOf(w.state), x.orderId)
    requires Extends(FactsOf(w.state), FactsOf(v.state))
    ensures Stepped(w, v, x, m)
  {
    assert ThreadSlot(w.busy[x].thread) == x;
    if |w.busy[x].thread.orderEvents| == 2 {
      FinishedStep(w, v, x, m);
      NothingNew(w.state, v.state);
    } else {
      FinishingStep(w, v, x, m);
    }
  }

  lemma StockStep(w: World, v: World, x: Slot, m: Mint)
    requires Driven(w) && x in w.busy && Landed(w, v, x, m) && FlightOk(w, x) && x.consumer == StockConsumer
    requires Consistent(w.state.inventory.tables, SD.Replay) && Extends(FactsOf(w.state), FactsOf(v.state))
    ensures Stepped(w, v, x, m)
  {
    var u := w.busy[x].thread;
    assert ThreadSlot(u) == x;
    if u.ReserveChecked? && Shortfall(w.state.inventory.levels, u.lines).Some? { ShortageStep(w, v, x, m); }
    else { ReservationStep(w, v, x, m); }
  }

  lemma ChargeStep(w: World, v: World, x: Slot, m: Mint)
    requires Driven(w) && x in w.busy && Landed(w, v, x, m) && FlightOk(w, x) && x.consumer == PaymentConsumer
    requires Consistent(w.state.payments.tables, PD.Replay) && FactsOk(FactsOf(w.state))
    requires Extends(FactsOf(w.state), FactsOf(v.state))
    ensures Stepped(w, v, x, m)
  {
    assert ThreadSlot(w.busy[x].thread) == x;
    if w.busy[x].thread.AuthorizeChecked? { AnswerStep(w, v, x, m); } else { PaymentStep(w, v, x, m); }
  }

  lemma OrchestratorStep(w: World, v: World, x: Slot, m: Mint)
    requires Driven(w) && x in w.busy && Landed(w, v, x, m) && FlightOk(w, x)
    requires ThreadOk(FactsOf(w.state), w.busy[x].thread) && x.consumer == SagaConsumer
    ensures Stepped(w, v, x, m)
  {
    hide Landed, Progresses, Step;
    var u := w.busy[x].thread;
    assert ThreadSlot(u) == x;
    if u.StartChecked? { StartStep(w, v, x, m); }
    else if u.StartPublished? { SaveStartStep(w, v, x, m); }
    else if u.OutcomePublished? { SaveOutcomeStep(w, v, x, m); }
    else if u.OutcomeSaved? { AnnounceStep(w, v, x, m); }
    else if Passed(u.snapshot, u.event) {
      PassedEventStep(w, v, x, m);
      NothingNew(w.state, v.state);
    }
    else if TypeOf(u.event) == INVENTORY_RESERVED { ForwardEventStep(w, v, x, m); }
    else { FinalEventStep(w, v, x, m); }
  }

  lemma HandlerStepped(w: World, v: World, x: Slot, m: Mint)
    requires Driven(w) && x in w.busy && Landed(w, v, x, m) && FlightOk(w, x)
    requires ThreadOk(FactsOf(w.state), w.busy[x].thread) && TablesOk(w.state) && FactsOk(FactsOf(w.state))
    requires Extends(FactsOf(w.state), FactsOf(v.state))
    ensures Stepped(w, v, x, m)
  {
    assert ThreadSlot(w.busy[x].thread) == x;
    match x.consumer
    case OrderConsumer =>
      assert OrderOk(FactsOf(w.state), x.orderId);
      OrderStep(w, v, x, m);
    case StockConsumer => StockStep(w, v, x, m);
    case PaymentConsumer => ChargeStep(w, v, x, m);
    case SagaConsumer => OrchestratorStep(w, v, x, m);
  }

  lemma MoveStepped(w: World, x: Slot, m: Mint) returns (v: World)
    requires Inv(w.state) && Driven(w) && x in w.busy
    ensures v == Move(w, x, m) && Inv(v.state) && Landed(w, v, x, m) && Stepped(w, v, x, m)
  {
    v := Move(w, x, m);
    MoveLands(w, x, m);
    MoveKeepsInv(w, x, m);
    assert FlightOk(w, x) && w.busy[x].thread in w.state.threads;
    HandlerStepped(w, v, x, m);
  }

  lemma LandedAloft(w: World, v: World, x: Slot, m: Mint, all: bool)
    requires x in w.busy && Landed(w, v, x, m)
    ensures
      var counted := w.busy[x].first || all;
      Aloft(v.busy, all) == Aloft(w.busy, all)
        + (if counted then NextWeight(NextThread(w.state, w.busy[x].thread, m)) - Weight(w.busy[x].thread) else 0)
  {
    AloftLeaving(w.busy, x, all);
    if NextThread(w.state, w.busy[x].thread, m).Some? {
      AloftLeaving(v.busy, x, all);
      assert v.busy - {x} == w.busy - {x};
    }
  }

  lemma LighterWaits(tokens: set<Token>, more: set<Token>, next: Option<Thread>, bound: nat)
    requires Lighter(more, next, bound)
    ensures Waiting(tokens + more) + NextWeight(next) < Waiting(tokens) + bound
  {
    if more == {} {
      WaitingWith(tokens, more, 0);
    } else {
      var t :| more == {t} && Rank(t) + NextWeight(next) < bound;
      WaitingWith(tokens, more, Rank(t));
    }
  }

  lemma SteppedIsLighter(w: World, v: World, x: Slot, m: Mint, all: bool)
    requires x in w.busy && Landed(w, v, x, m)
    requires Lighter(NewTokens(w.state, v.state), NextThread(w.state, w.busy[x].thread, m), Weight(w.busy[x].thread))
    requires !w.busy[x].first ==> NewTokens(w.state, v.state) == {}
    ensures w.busy[x].first || all ==> Work(v, all) < Work(w, all)
    ensures !w.busy[x].first && !all ==> Work(v, all) == Work(w, all)
  {
    var more := NewTokens(w.state, v.state);
    LandedAloft(w, v, x, m, all);
    LighterWaits(w.pending, more, NextThread(w.state, w.busy[x].thread, m), Weight(w.busy[x].thread));
    if more == {} { assert w.pending + more == w.pending; }
  }

  /** What a step of the handler in slot x must leave behind. */
  ghost predicate ProceedsWell(w: World, v: World, x: Slot, all: bool)
    requires x in w.busy
  {
    && Good(v)
    && (w.busy[x].first || all ==> Work(v, all) < Work(w, all))
    && (!w.busy[x].first ==> SameButThreads(w.state, v.state) && v.pending == w.pending)
    && (!w.busy[x].first && !all ==> Work(v, all) == Work(w, all))
  }

  lemma SteppedProceedsWell(w: World, v: World, x: Slot, m: Mint, all: bool)
    requires Airborne(w) && Settled(w) && x in w.busy && Landed(w, v, x, m) && Stepped(w, v, x, m) && Inv(v.state)
    ensures ProceedsWell(w, v, x, all)
  {
    if !w.busy[x].first { NothingNew(w.state, v.state); }
    ProgressKeepsSettled(w, v, {});
    SteppedIsLighter(w, v, x, m, all);
  }

  /** Every step of every handler in flight keeps the run in order. A first handling leaves strictly less work; a
      duplicate changes nothing but its own position. */
  lemma ProceedProgresses(w: World, x: Slot, m: Mint, all: bool) returns (v: World)
    requires Good(w) && x in w.busy
    ensures v == Happen(w, Proceed(x, m)) && ProceedsWell(w, v, x, all)
  {
    hide Do, ThreadEffect, NextThread, NewTokens, Inv, Settled, Landed, Stepped, ProceedsWell;
    v := MoveStepped(w, x, m);
    SteppedProceedsWell(w, v, x, m, all);
  }

  /* ---- A delivery's first step ---- */

  /** v is the world after a consumer took the token up. */
  ghost predicate Taken(w: World, v: World, t: Token, m: Mint, first: bool)
  {
    && v.pending == w.pending - {t} + NewTokens(w.state, v.state)
    && match t
       case Row(e) => v.state == w.state.(events := w.state.events + {e}) && v.busy == w.busy
       case Cmd(CreateOrder(o, customerId, items)) =>
         v.state == w.state.(orders := HandleCreate(w.state.orders, o, customerId, items)) && v.busy == w.busy
       case _ => TakenUp(w, v, t, m, first)
  }

  lemma FirstThreadInSlot(w: World, t: Token, m: Mint)
    requires FirstThread(w.state, t, m).Some? && Published(w.state, t)
    requires t.Cmd? ==> CommandDriven(w, t.command)
    requires t.Evt? && OrderOf(t.event) in w.state.sagas ==> w.state.sagas[OrderOf(t.event)].sagaId == OrderOf(t.event)
    ensures Some(ThreadSlot(FirstThread(w.state, t, m).value)) == TokenSlot(t)
  {
  }

  lemma RowTakes(w: World, e: Contracts.Event, m: Mint, first: bool)
    requires InOutbox(w.state, e)
    ensures Taken(w, TakeUp(w, Row(e), m, first), Row(e), m, first)
  {
  }

  lemma CommandTakes(w: World, c: Command, m: Mint, first: bool)
    requires c in w.state.commands && Idle(w, Cmd(c)) && CommandDriven(w, c)
    ensures Taken(w, TakeUp(w, Cmd(c), m, first), Cmd(c), m, first)
  {
    if CommandThread(w.state, c, m).Some? { FirstThreadInSlot(w, Cmd(c), m); }
  }

  lemma EventTakes(w: World, e: Contracts.Event, m: Mint, first: bool)
    requires e in w.state.events && Idle(w, Evt(e))
    requires OrderOf(e) in w.state.sagas ==> w.state.sagas[OrderOf(e)].sagaId == OrderOf(e)
    ensures Taken(w, TakeUp(w, Evt(e), m, first), Evt(e), m, first)
  {
    if EventThread(w.state, e).Some? { FirstThreadInSlot(w, Evt(e), m); }
  }

  lemma TakeUpTakes(w: World, t: Token, m: Mint, first: bool) returns (v: World)
    requires Inv(w.state) && Driven(w) && Idle(w, t) && Published(w.state, t)
    ensures v == TakeUp(w, t, m, first) && Taken(w, v, t, m, first) && Advances(w.state, v.state)
  {
    v := TakeUp(w, t, m, first);
    match t {
      case Row(e) => RowTakes(w, e, m, first);
      case Cmd(c) => CommandTakes(w, c, m, first);
      case Evt(e) => EventTakes(w, e, m, first);
    }
    DoKeeps(w.state, FirstAction(t, m));
  }

  lemma TakenSaga(w: World, v: World, c: Command, m: Mint, first: bool)
    requires Driven(w) && c in w.state.commands && !c.CreateOrder? && TakenUp(w, v, Cmd(c), m, first)
    requires TablesOk(w.state) && FactsOk(FactsOf(w.state)) && CommandOk(FactsOf(w.state), c)
    requires if first then FreshFor(w, m) else Handled(w, Cmd(c))
    ensures Progresses(w, v) && (Handled(v, Cmd(c)) || Serving(v, Cmd(c)))
    ensures NextWeight(FirstThread(w.state, Cmd(c), m)) < Rank(Cmd(c))
  {
    assert CommandDriven(w, c);
    if c.ReserveStock? { ReserveTaken(w, v, c, m, first); }
    else if c.AuthorizePayment? { AuthorizeTaken(w, v, c, m, first); }
    else { FinishTaken(w, v, c, m, first); }
  }

  lemma TakenCommand(w: World, v: World, c: Command, m: Mint, first: bool)
    requires Driven(w) && c in w.state.commands && !c.CreateOrder? && TakenUp(w, v, Cmd(c), m, first)
    requires TablesOk(w.state) && FactsOk(FactsOf(w.state)) && CommandOk(FactsOf(w.state), c)
    requires if first then FreshFor(w, m) else Handled(w, Cmd(c))
    ensures Progresses(w, v) && (Handled(v, Cmd(c)) || Serving(v, Cmd(c))) && SameButThreads(w.state, v.state)
    ensures Lighter(NewTokens(w.state, v.state), FirstThread(w.state, Cmd(c), m), Rank(Cmd(c)))
  {
    NothingNew(w.state, v.state);
    TakenSaga(w, v, c, m, first);
  }

  lemma TakenEvent(w: World, v: World, e: Contracts.Event, m: Mint, first: bool)
    requires Driven(w) && Taken(w, v, Evt(e), m, first) && Idle(w, Evt(e)) && (first || Handled(w, Evt(e)))
    requires FactsOk(FactsOf(w.state)) && InFlightOk(FactsOf(w.state), w.state) && EventOk(FactsOf(w.state), e)
    ensures Progresses(w, v) && (Handled(v, Evt(e)) || Serving(v, Evt(e)))
    ensures Lighter(NewTokens(w.state, v.state), FirstThread(w.state, Evt(e), m), Rank(Evt(e)))
    ensures !first ==> SameButThreads(w.state, v.state)
  {
    NothingNew(w.state, v.state);
    if e.OrderEvt? && e.order.OrderCreated? {
      CreatedTaken(w, v, e, m, first);
    } else {
      EventIsExpected(w, e);
      EventTaken(w, v, e, m, first);
    }
  }

  lemma TakenRow(w: World, v: World, e: Contracts.Event, m: Mint, first: bool)
    requires Driven(w) && Taken(w, v, Row(e), m, first) && (first || Handled(w, Row(e)))
    ensures Progresses(w, v) && Handled(v, Row(e))
    ensures Lighter(NewTokens(w.state, v.state), None, Rank(Row(e)))
    ensures !first ==> SameButThreads(w.state, v.state)
  {
    RelayTaken(w, v, e);
    if e in w.state.events { assert w.state.events + {e} == w.state.events; }
    else { assert NewTokens(w.state, v.state) == {Evt(e)} && Rank(Evt(e)) < Rank(Row(e)); }
  }

  lemma TakenProgresses(w: World, v: World, t: Token, m: Mint, first: bool)
    requires Inv(w.state) && Driven(w) && Idle(w, t) && Published(w.state, t) && Taken(w, v, t, m, first)
    requires Extends(FactsOf(w.state), FactsOf(v.state)) && (if first then FreshFor(w, m) else Handled(w, t))
    ensures Progresses(w, v) && (Handled(v, t) || Serving(v, t)) && (!first ==> SameButThreads(w.state, v.state))
    ensures Lighter(NewTokens(w.state, v.state), FirstThread(w.state, t, m), Rank(t))
  {
    hide Progresses, TakenUp, Driven, FactsOk;
    match t
    case Cmd(c) =>
      assert CommandOk(FactsOf(w.state), c);
      if c.CreateOrder? { CreateTaken(w, v, c); } else { TakenCommand(w, v, c, m, first); }
    case Evt(e) =>
      assert EventOk(FactsOf(w.state), e);
      TakenEvent(w, v, e, m, first);
    case Row(e) => TakenRow(w, v, e, m, first);
  }

  lemma TakenIsLighter(w: World, v: World, t: Token, m: Mint, first: bool, all: bool)
    requires Taken(w, v, t, m, first) && Idle(w, t)
    requires Lighter(NewTokens(w.state, v.state), FirstThread(w.state, t, m), Rank(t))
    ensures first && t in w.pending ==> Work(v, all) < Work(w, all)
    ensures !first && t !in w.pending && !all && SameButThreads(w.state, v.state) ==> Work(v, all) == Work(w, all)
  {
    var more, u := NewTokens(w.state, v.state), FirstThread(w.state, t, m);
    if v.busy != w.busy { AloftBoarding(w.busy, ThreadSlot(u.value), Flight(u.value, first), all); }
    if t in w.pending { WaitingWithout(w.pending, t); } else { assert w.pending - {t} == w.pending; }
    LighterWaits(w.pending - {t}, more, u, Rank(t));
    if SameButThreads(w.state, v.state) {
      NothingNew(w.state, v.state);
      assert w.pending - {t} + more == w.pending - {t};
    }
  }

  lemma TakenKeepsGood(w: World, v: World, t: Token, m: Mint, first: bool)
    requires Good(w) && Idle(w, t) && Published(w.state, t) && Taken(w, v, t, m, first) && Advances(w.state, v.state)
    requires if first then FreshFor(w, m) else Handled(w, t)
    ensures Good(v) && Lighter(NewTokens(w.state, v.state), FirstThread(w.state, t, m), Rank(t))
    ensures !first ==> SameButThreads(w.state, v.state)
  {
    hide TakenUp, Driven, FactsOk;
    TakenProgresses(w, v, t, m, first);
    ProgressKeepsSettled(w, v, {t});
  }

  /** The first delivery of something outstanding keeps the run in order and leaves strictly less work. */
  lemma TakeProgresses(w: World, t: Token, m: Mint, all: bool)
    requires Good(w) && t in w.pending && Idle(w, t) && FreshFor(w, m)
    ensures Good(Happen(w, Take(t, m))) && Work(Happen(w, Take(t, m)), all) < Work(w, all)
  {
    var v := TakeUpTakes(w, t, m, true);
    TakenKeepsGood(w, v, t, m, true);
    TakenIsLighter(w, v, t, m, true, all);
  }

  /** Only the slot of the duplicate has changed, if anything. */
  ghost predicate Unchanged(w: World, v: World)
  {
    && SameButThreads(w.state, v.state) && v.pending == w.pending && Work(v, false) == Work(w, false)
    && forall x :: x in w.busy ==> x in v.busy && v.busy[x] == w.busy[x]
  }

  lemma TakenLeavesUnchanged(w: World, v: World, t: Token, m: Mint)
    requires Taken(w, v, t, m, false) && Idle(w, t) && t !in w.pending && SameButThreads(w.state, v.state)
    requires Lighter(NewTokens(w.state, v.state), FirstThread(w.state, t, m), Rank(t))
    ensures Unchanged(w, v)
  {
    TakenIsLighter(w, v, t, m, false, false);
    NothingNew(w.state, v.state);
  }

  lemma DuplicateTaken(w: World, v: World, t: Token, m: Mint)
    requires Good(w) && Idle(w, t) && Published(w.state, t) && t !in w.pending && Taken(w, v, t, m, false)
    requires Advances(w.state, v.state)
    ensures Good(v) && Unchanged(w, v)
  {
    assert Handled(w, t);
    TakenKeepsGood(w, v, t, m, false);
    TakenLeavesUnchanged(w, v, t, m);
  }

  /** A duplicate of something handled changes no table, no saga row, no topic and no other handler, and leaves no
      more work than there was. */
  lemma DuplicatesChangeNothing(w: World, t: Token, m: Mint)
    requires Good(w)
    ensures Good(Happen(w, Again(t, m))) && Unchanged(w, Happen(w, Again(t, m)))
  {
    if Published(w.state, t) && t !in w.pending && Idle(w, t) {
      var v := TakeUpTakes(w, t, m, false);
      DuplicateTaken(w, v, t, m);
    }
  }

  lemma SubmitKeepsDriven(w: World, v: World, c: Command)
    requires Driven(w) && c.CreateOrder? && v.state == w.state.(commands := w.state.commands + {c}) && v.busy == w.busy
    ensures Progresses(w, v)
  {
    forall o ensures SagaOf(v, o) == SagaOf(w, o) {}
    LocalProgresses(w, v, None);
  }

  /** A new order is a new message and at most 24 units of work. */
  lemma SubmitKeepsGood(w: World, c: Command, all: bool)
    requires Good(w)
    ensures Good(Happen(w, Submit(c))) && Work(Happen(w, Submit(c)), all) <= Work(w, all) + 24
  {
    if c.CreateOrder? && c !in w.state.commands {
      var v := Happen(w, Submit(c));
      DoKeeps(w.state, Issue(c));
      SubmitKeepsDriven(w, v, c);
      CommandIsNew(w.state, v.state, c);
      ProgressKeepsSettled(w, v, {});
      assert Rank(Cmd(c)) == 24;
      WaitingWith(w.pending, {Cmd(c)}, 24);
    }
  }

  /* ---- No handler throws ---- */

  /** The next step of a handler commits what it set out to do: no ConcurrencyError, no failed transaction. A
      reservation may find the stock short, which it goes on to record. */
  ghost predicate StepCommits(s: State, u: Thread, m: Mint)
  {
    match u
    case ConfirmLoaded(o, paymentId, loaded) =>
      FinishOrder(s.orders, o, loaded, OD.Confirming(o, OD.Replay(loaded), paymentId)).Ok?
    case CancelLoaded(o, reason, loaded) =>
      FinishOrder(s.orders, o, loaded, OD.Cancelling(o, OD.Replay(loaded), reason)).Ok?
    case ReserveChecked(o, lines) =>
      var reserved := ReserveTransaction(s.inventory, o, m.reservationId, lines);
      reserved.Ok? || reserved.error.Insufficient?
    case ReserveRefused(o, shortage) => FailureTransaction(s.inventory, o, shortage).Ok?
    case AuthorizeAnswered(o, amountCents, p, reply) =>
      SavePayment(s.payments.tables, p, [], PaymentOutcome(p, o, amountCents, reply)).Some?
    case ReleaseLoaded(_, _) => false
    case RefundLoaded(_, _) => false
    case _ => true
  }

  lemma FlightCommits(w: World, x: Slot, m: Mint)
    requires TablesOk(w.state) && FactsOk(FactsOf(w.state)) && x in w.busy && FlightOk(w, x)
    requires ThreadOk(FactsOf(w.state), w.busy[x].thread)
    ensures StepCommits(w.state, w.busy[x].thread, m)
  {
    var u, s := w.busy[x].thread, w.state;
    if IsFinishing(u) {
      assert OrderOk(FactsOf(s), u.orderId);
      if |u.orderEvents| == 1 {
        var _ := FinishRecords(s.orders, u);
      } else {
        OD.ReplayOfStream(u.orderId, u.orderEvents);
      }
    } else if IsReserving(u) {
      FirstStockEvent(s.inventory.tables, u.orderId, ReservationEvent(u, m));
    } else if u.AuthorizeAnswered? {
      PaymentIsFound(s, u.orderId);
      FirstPaymentEvent(s.payments.tables, u.paymentId, PaymentOutcome(u.paymentId, u.orderId, u.amountCents, u.reply));
    }
  }

  lemma HappeningKeepsGood(w: World, h: Happening)
    requires Good(w)
    ensures Good(Happen(w, h))
  {
    match h
    case Submit(c) => SubmitKeepsGood(w, c, false);
    case Take(t, m) => if t in w.pending && Idle(w, t) && FreshFor(w, m) { TakeProgresses(w, t, m, false); }
    case Again(t, m) => DuplicatesChangeNothing(w, t, m);
    case Proceed(x, m) => if x in w.busy { var _ := ProceedProgresses(w, x, m, false); }
  }

  lemma {:induction false} PlayIsGood(levels: Levels, events: seq<Happening>)
    ensures Good(Play(levels, events))
    decreases |events|
  {
    if events == [] {
      ReachableIsOk(levels, []);
      assert forall t :: !Published(Init(levels), t);
      assert Threads(map[]) == {};
    } else {
      PlayIsGood(levels, events[..|events| - 1]);
      HappeningKeepsGood(Play(levels, events[..|events| - 1]), events[|events| - 1]);
    }
  }

  /** No handler of a crash-free run throws: whoever takes up ConfirmOrder or CancelOrder finds the order, and
      every later step of every handler commits. */
  lemma NothingThrows(levels: Levels, events: seq<Happening>, m: Mint)
    ensures
      var w := Play(levels, events);
      && (forall c :: c in w.state.commands && (c.ConfirmOrder? || c.CancelOrder?) ==>
          w.state.orders.Stream(c.orderId) != [])
      && (forall x :: x in w.busy ==> StepCommits(w.state, w.busy[x].thread, m))
  {
    var w := Play(levels, events);
    PlayIsGood(levels, events);
    forall c | c in w.state.commands && (c.ConfirmOrder? || c.CancelOrder?)
      ensures w.state.orders.Stream(c.orderId) != []
    {
      assert CommandOk(FactsOf(w.state), c);
    }
    forall x | x in w.busy ensures StepCommits(w.state, w.busy[x].thread, m) {
      assert w.busy[x].thread in w.state.threads;
      FlightCommits(w, x, m);
    }
  }

  /* ---- Whole runs ---- */

  /** A happening that is not a submission and not part of a duplicate: the first delivery of something
      outstanding, or a step of a handler that is the first to handle its message. */
  predicate Effective(w: World, h: Happening)
  {
    match h
    case Take(t, m) => t in w.pending && Idle(w, t) && FreshFor(w, m)
    case Proceed(x, _) => x in w.busy && w.busy[x].first
    case _ => false
  }

  function EffectiveSteps(levels: Levels, events: seq<Happening>): nat
  {
    if events == [] then 0
    else
      var n := |events| - 1;
      EffectiveSteps(levels, events[..n]) + (if Effective(Play(levels, events[..n]), events[n]) then 1 else 0)
  }

  function Submissions(events: seq<Happening>): nat
  {
    if events == [] then 0 else Submissions(events[..|events| - 1]) + (if events[|events| - 1].Submit? then 1 else 0)
  }

  /** The measure: every effective step leaves strictly less work, nothing but a submission ever adds to it. */
  lemma HappeningWorks(w: World, h: Happening)
    requires Good(w)
    ensures Effective(w, h) ==> Work(Happen(w, h), false) < Work(w, false)
    ensures h.Submit? ==> Work(Happen(w, h), false) <= Work(w, false) + 24
    ensures !Effective(w, h) && !h.Submit? ==> Work(Happen(w, h), false) == Work(w, false)
  {
    match h
    case Submit(c) => SubmitKeepsGood(w, c, false);
    case Take(t, m) => if t in w.pending && Idle(w, t) && FreshFor(w, m) { TakeProgresses(w, t, m, false); }
    case Again(t, m) => DuplicatesChangeNothing(w, t, m);
    case Proceed(x, m) => if x in w.busy { var _ := ProceedProgresses(w, x, m, false); }
  }

  /** Termination: however a run is scheduled and however many duplicates it contains, at most 24 deliveries, relays
      and handler steps take effect per order submitted; what is left is bounded by what has not been done. */
  lemma {:induction false} RunsAreBounded(levels: Levels, events: seq<Happening>)
    ensures Work(Play(levels, events), false) + EffectiveSteps(levels, events) <= 24 * Submissions(events)
    ensures EffectiveSteps(levels, events) <= 24 * Submissions(events)
    decreases |events|
  {
    WorkIsNonNegative(Play(levels, events), false);
    if events == [] {
      assert Waiting({}) == 0 && Aloft(map[], false) == 0;
    } else {
      RunsAreBounded(levels, events[..|events| - 1]);
      PlayIsGood(levels, events[..|events| - 1]);
      HappeningWorks(Play(levels, events[..|events| - 1]), events[|events| - 1]);
    }
  }

  /* ---- At rest ---- */

  /** No message, no row and no handler is left. */
  predicate AtRest(w: World) { w.pending == {} && w.busy == map[] }

  lemma {:induction false} StoredIsInOutbox<E>(outbox: seq<OutboxRow<E>>, id: nat, j: nat)
    requires j < |EventsFor(outbox, id)|
    ensures exists k :: 0 <= k < |outbox| && outbox[k].event == EventsFor(outbox, id)[j]
    decreases |outbox|
  {
    var n := |outbox| - 1;
    if j < |EventsFor(outbox[..n], id)| {
      StoredIsInOutbox(outbox[..n], id, j);
      var k :| 0 <= k < |outbox[..n]| && outbox[..n][k].event == EventsFor(outbox[..n], id)[j];
      assert outbox[k].event == EventsFor(outbox, id)[j];
    } else {
      assert outbox[n].event == EventsFor(outbox, id)[j];
    }
  }

  lemma StockIsRelayed(s: State, o: OrderId)
    requires TablesOk(s) && FactsOf(s).StockAt(o) != []
    ensures InOutbox(s, StockEvt(FactsOf(s).StockAt(o)[0]))
  {
    assert EventsFor(s.inventory.tables.outbox, o) == s.inventory.tables.Stream(o);
    StoredIsInOutbox(s.inventory.tables.outbox, o, 0);
  }

  lemma PaymentIsRelayed(s: State, p: PaymentId)
    requires TablesOk(s) && FactsOf(s).PaymentAt(p) != []
    ensures InOutbox(s, PaymentEvt(FactsOf(s).PaymentAt(p)[0]))
  {
    assert EventsFor(s.payments.tables.outbox, p) == s.payments.tables.Stream(p);
    StoredIsInOutbox(s.payments.tables.outbox, p, 0);
  }

  lemma OrderIsRelayed(s: State, o: OrderId)
    requires TablesOk(s) && FactsOf(s).OrderAt(o) != []
    ensures InOutbox(s, OrderEvt(FactsOf(s).OrderAt(o)[0]))
  {
    assert EventsFor(s.orders.outbox, o) == s.orders.Stream(o);
    StoredIsInOutbox(s.orders.outbox, o, 0);
  }

  /** At rest, a stored event has been relayed and its delivery has had its effect. */
  lemma StoredIsHandled(w: World, e: Contracts.Event)
    requires Settled(w) && AtRest(w) && InOutbox(w.state, e)
    ensures Handled(w, Evt(e))
  {
    assert Published(w.state, Row(e)) && Handled(w, Row(e));
    assert Published(w.state, Evt(e));
  }

  lemma SagaIsOver(w: World, o: OrderId)
    requires Good(w) && AtRest(w) && Begun(w, o)
    ensures Over(w, o)
  {
    var s, sn, f := w.state, SagaOf(w, o).value, FactsOf(w.state);
    assert SagaOk(f, sn) && Announced(w, o);
    if !Terminal(sn.status) {
      if sn.currentStepIndex == 0 {
        assert Published(s, Cmd(ReserveCommand(sn.context))) && Handled(w, Cmd(ReserveCommand(sn.context)));
        StockIsRelayed(s, o);
        assert StockOk(f, o);
        StoredIsHandled(w, StockEvt(f.StockAt(o)[0]));
      } else {
        assert Published(s, Cmd(AuthorizeCommand(sn.context))) && Handled(w, Cmd(AuthorizeCommand(sn.context)));
        var p :| HasPaymentFor(f, o, p);
        PaymentIsRelayed(s, p);
        StoredIsHandled(w, PaymentEvt(f.PaymentAt(p)[0]));
      }
    }
  }

  lemma OverIsFinal(w: World, o: OrderId)
    requires Settled(w) && AtRest(w) && Over(w, o) && Announced(w, o)
    requires SagaOf(w, o).value.context.orderId == o
    ensures |w.state.orders.Stream(o)| == 2
  {
    var c := Cmd(TerminalCommand(SagaOf(w, o).value).value);
    assert Published(w.state, c) && Handled(w, c);
  }

  lemma OrderIsDecided(w: World, o: OrderId)
    requires Good(w) && AtRest(w) && o in w.state.orders.rows
    ensures |w.state.orders.Stream(o)| == 2
  {
    assert OrderOk(FactsOf(w.state), o);
    OrderIsRelayed(w.state, o);
    StoredIsHandled(w, OrderEvt(FactsOf(w.state).OrderAt(o)[0]));
    SagaIsOver(w, o);
    assert SagaOk(FactsOf(w.state), w.state.sagas[o]) && Announced(w, o);
    OverIsFinal(w, o);
  }

  /** Quiescence: when no row, no message and no handler is left, every accepted order is CONFIRMED or CANCELLED. The
      gateway has been asked about exactly the orders whose stock was reserved, and CONFIRMED are exactly those it
      accepted. */
  lemma AtRestEveryOrderIsDecided(levels: Levels, events: seq<Happening>, o: OrderId)
    requires AtRest(Play(levels, events)) && o in Play(levels, events).state.orders.rows
    ensures
      var s := Play(levels, events).state;
      && (OrderStatusOf(s, o) == OD.CONFIRMED || OrderStatusOf(s, o) == OD.CANCELLED)
      && s.inventory.tables.Head(o).Some?
      && (s.inventory.tables.Head(o).value.InventoryReserved? <==> o in s.payments.gateway)
      && (OrderStatusOf(s, o) == OD.CONFIRMED <==>
            s.inventory.tables.Head(o).value.InventoryReserved? && Charged(s, o))
  {
    var w := Play(levels, events);
    PlayIsGood(levels, events);
    OrderIsDecided(w, o);
    StatusIsStream(w.state, o);
    if OrderStatusOf(w.state, o) == OD.CONFIRMED {
      ConfirmedIsBacked(w.state, o);
    } else {
      CancelledIsDoomed(w.state, o);
      CancelledReservation(w.state, o);
    }
  }

  /* ---- Rest is always within reach ---- */

  /** An id that is not in use. */
  ghost function Unused(ids: set<nat>): (n: nat)
    ensures forall id :: id in ids ==> id < n
    decreases |ids|
  {
    if ids == {} then 0
    else
      var id :| id in ids;
      var rest := Unused(ids - {id});
      assert forall other :: other in ids ==> other == id || other in ids - {id};
      if id < rest then rest else id + 1
  }

  ghost function FreshMint(w: World, decision: Decision): (m: Mint)
    ensures FreshFor(w, m) && m.decision == decision
  {
    var inFlight := set x | x in w.busy && PaymentIdOf(w.busy[x].thread).Some? :: PaymentIdOf(w.busy[x].thread).value;
    assert forall x :: x in w.busy && PaymentIdOf(w.busy[x].thread).Some? ==>
        PaymentIdOf(w.busy[x].thread).value in inFlight;
    Mint(0, Unused(w.state.payments.tables.streams.Keys + inFlight), decision)
  }

  /** A step of a handler or a first delivery, with the gateway deciding as told if it is asked for the first time. */
  predicate Decides(h: Happening, decision: Decision)
  {
    (h.Take? || h.Proceed?) && h.mint.decision == decision
  }

  /** As long as something is left, something can be done that leaves less, whatever the gateway decides. */
  lemma CanStep(w: World, decision: Decision) returns (h: Happening)
    requires Good(w) && !AtRest(w)
    ensures Decides(h, decision)
    ensures Work(Happen(w, h), true) < Work(w, true)
  {
    if w.busy != map[] {
      var x :| x in w.busy;
      h := Proceed(x, FreshMint(w, decision));
      var _ := ProceedProgresses(w, x, h.mint, true);
    } else {
      var t :| t in w.pending;
      h := Take(t, FreshMint(w, decision));
      TakeProgresses(w, t, h.mint, true);
    }
  }

  lemma PlayOn(levels: Levels, events: seq<Happening>, h: Happening)
    ensures Play(levels, events + [h]) == Happen(Play(levels, events), h)
  {
    assert (events + [h])[..|events|] == events;
  }

  /** From any point of any run, doing what is left leads to rest, in at most as many steps as there is work and
      whatever the gateway decides. */
  lemma {:induction false} EveryRunCanFinish(levels: Levels, events: seq<Happening>, decision: Decision)
    returns (more: seq<Happening>)
    ensures AtRest(Play(levels, events + more)) && |more| <= Work(Play(levels, events), true)
    ensures forall i :: 0 <= i < |more| ==> Decides(more[i], decision)
    decreases Work(Play(levels, events), true)
  {
    hide Happen, Good;
    WorkIsNonNegative(Play(levels, events), true);
    PlayIsGood(levels, events);
    if AtRest(Play(levels, events)) {
      more := [];
      assert events + more == events;
    } else {
      var h := CanStep(Play(levels, events), decision);
      PlayOn(levels, events, h);
      var rest := EveryRunCanFinish(levels, events + [h], decision);
      more := [h] + rest;
      assert events + more == events + [h] + rest;
    }
  }
}

/** Which orders end CONFIRMED in a crash-free run, and that there are runs in which they do. */
module Confirmations {
  import opened Basics
  import opened Contracts
  import opened Persistence
  import opened StockLedger
  import opened PaymentService
  import opened Checkout
  import opened CheckoutFacts
  import opened CheckoutInvariant
  import opened CheckoutTheorems
  import opened CheckoutCancellations
  import opened Flights
  import opened Progress
  import opened Quiescence
  import OD = OrderDomain

  /* ---- When every order is confirmed ---- */

  predicate Accepting(events: seq<Happening>)
  {
    forall i :: 0 <= i < |events| ==> events[i].Proceed? ==> events[i].mint.decision.Accept?
  }

  lemma {:induction false} AcceptingPlaysApprove(levels: Levels, events: seq<Happening>)
    requires Accepting(events)
    ensures AllApproved(Play(levels, events).state)
    decreases |events|
  {
    if events != [] {
      var w := Play(levels, events[..|events| - 1]);
      AcceptingPlaysApprove(levels, events[..|events| - 1]);
      match events[|events| - 1]
      case Submit(c) => DoStaysApproved(w.state, Issue(c));
      case Take(t, m) => DoStaysApproved(w.state, FirstAction(t, m));
      case Again(t, m) => DoStaysApproved(w.state, FirstAction(t, m));
      case Proceed(x, m) =>
        if x in w.busy {
          var u := w.busy[x].thread;
          DoStaysApproved(w.state, Continue(u, m));
          DoStaysApproved(Do(w.state, Continue(u, m)), Drop(u));
        }
    }
  }

  /** At rest, if the table covers every order accepted and the gateway accepted every charge, every accepted order is
      CONFIRMED. */
  lemma CoveredOrdersAreConfirmed(levels: Levels, events: seq<Happening>, o: OrderId)
    requires AtRest(Play(levels, events)) && o in Play(levels, events).state.orders.rows
    requires Covers(levels, FactsOf(Play(levels, events).state)) && Accepting(events)
    ensures OrderStatusOf(Play(levels, events).state, o) == OD.CONFIRMED
  {
    hide Play, Exec, Covers, Unrefused, Accepting, AllApproved, Inv;
    var s := Play(levels, events).state;
    PlaysAreRuns(levels, events);
    var actions :| Exec(Init(levels), actions) == s;
    ReachableIsOk(levels, actions);
    NoNeedlessRefusal(levels, actions);
    AcceptingPlaysApprove(levels, events);
    AtRestEveryOrderIsDecided(levels, events, o);
    if OrderStatusOf(s, o) == OD.CANCELLED { CancelledForAReason(s, o); }
  }

  /* ---- A run that confirms ---- */

  /** No handler that is under way starts an order's stream. */
  lemma ContinuingStartsNoOrder(s: State, t: Thread, m: Mint, o: OrderId)
    requires Inv(s) && t in s.threads && FactsOf(s).OrderAt(o) == []
    ensures FactsOf(Do(s, Continue(t, m))).OrderAt(o) == []
  {
    assert ThreadOk(FactsOf(s), t);
    hide Inv, Do;
    if Finishing(t) { FinishingAppends(s, t, m, o); }
    else { OnlyFinishingMovesOrders(s, t, m); }
  }

  /** A stream that starts with a step was started by CreateOrder. */
  lemma NewOrder(s: State, a: Action, o: OrderId)
    requires Inv(s) && FactsOf(s).OrderAt(o) == [] && Placed(FactsOf(Do(s, a)), o)
    ensures
      var e := FactsOf(Do(s, a)).OrderAt(o)[0];
      a.Receive? && a.command == CreateOrder(o, e.customerId, e.items) && a.command in s.commands
  {
    hide Inv;
    if a.Continue? && a.thread in s.threads { ContinuingStartsNoOrder(s, a.thread, a.mint, o); }
  }

  /** Every stored order was asked for by a command on the topic. */
  predicate OrderTraced(s: State, o: OrderId)
  {
    Placed(FactsOf(s), o) ==>
      var e := FactsOf(s).OrderAt(o)[0];
      CreateOrder(o, e.customerId, e.items) in s.commands
  }

  lemma OrderStaysPlaced(s: State, a: Action, o: OrderId)
    requires Inv(s) && FactsOf(s).OrderAt(o) != []
    ensures Placed(FactsOf(s), o) && Placed(FactsOf(Do(s, a)), o)
    ensures FactsOf(Do(s, a)).OrderAt(o)[0] == FactsOf(s).OrderAt(o)[0]
  {
    DoKeeps(s, a);
    hide Do, Inv;
    assert OrderKept(FactsOf(s), FactsOf(Do(s, a)), o) && OrderOk(FactsOf(s), o);
  }

  lemma DoTracesOrder(s: State, a: Action, o: OrderId)
    requires Inv(s) && OrderTraced(s, o)
    ensures OrderTraced(Do(s, a), o)
  {
    hide Do, Inv, Advances;
    CommandsStay(s, a);
    if Placed(FactsOf(Do(s, a)), o) {
      if FactsOf(s).OrderAt(o) == [] {
        NewOrder(s, a, o);
      } else {
        OrderStaysPlaced(s, a, o);
      }
    }
  }

  lemma {:induction false} OrdersAreTraced(levels: Levels, actions: seq<Action>, o: OrderId)
    ensures OrderTraced(Exec(Init(levels), actions), o)
    decreases |actions|
  {
    if actions != [] {
      ReachableIsOk(levels, actions[..|actions| - 1]);
      OrdersAreTraced(levels, actions[..|actions| - 1], o);
      DoTracesOrder(Exec(Init(levels), actions[..|actions| - 1]), actions[|actions| - 1], o);
    }
  }

  lemma TopicKeeps(w: World, h: Happening)
    ensures w.state.commands <= Happen(w, h).state.commands
  {
    hide Do;
    match h
    case Submit(c) => CommandsStay(w.state, Issue(c));
    case Take(t, m) => CommandsStay(w.state, FirstAction(t, m));
    case Again(t, m) => CommandsStay(w.state, FirstAction(t, m));
    case Proceed(x, m) =>
      if x in w.busy {
        var u := w.busy[x].thread;
        CommandsStay(w.state, Continue(u, m));
        CommandsStay(Do(w.state, Continue(u, m)), Drop(u));
      }
  }

  lemma SubmittedNow(w: World, h: Happening, c: Command)
    requires c.CreateOrder? && c in Happen(w, h).state.commands && c !in w.state.commands
    ensures h == Submit(c)
  {
    match h
    case Submit(d) => OutsideCommandsAreIssued(w.state, Issue(d), c);
    case Take(t, m) => OutsideCommandsAreIssued(w.state, FirstAction(t, m), c);
    case Again(t, m) => OutsideCommandsAreIssued(w.state, FirstAction(t, m), c);
    case Proceed(x, m) => OutsideCommandsAreIssued(w.state, Continue(w.busy[x].thread, m), c);
  }

  lemma SubmittingPublishes(w: World, h: Happening, c: Command)
    requires c.CreateOrder?
    ensures c in Happen(w, h).state.commands <==> c in w.state.commands || h == Submit(c)
  {
    TopicKeeps(w, h);
    if c in Happen(w, h).state.commands && c !in w.state.commands { SubmittedNow(w, h, c); }
  }

  /** A customer's order is on the topic exactly if it was submitted. */
  lemma {:induction false} OnTopicExactlyIfSubmitted(levels: Levels, events: seq<Happening>, c: Command)
    requires c.CreateOrder?
    ensures c in Play(levels, events).state.commands <==> Submit(c) in events
    decreases |events|
  {
    if events != [] {
      var init, last := events[..|events| - 1], events[|events| - 1];
      assert events == init + [last];
      OnTopicExactlyIfSubmitted(levels, init, c);
      SubmittingPublishes(Play(levels, init), last, c);
    }
  }

  /** Positive quantities of SKUs there are, and enough of each. */
  predicate Fits(levels: Levels, items: seq<OrderLineItem>)
  {
    && Askable(levels, ReservationLines(items))
    && forall sku :: sku in levels ==>
         levels[sku].qtyReserved + Demand(ReservationLines(items), sku) <= levels[sku].qtyAvailable
  }

  lemma OrderIsPlaced(s: State, o: OrderId)
    requires Inv(s) && o in FactsOf(s).orders
    ensures Placed(FactsOf(s), o)
  {
    assert OrderOk(FactsOf(s), o);
  }

  lemma OnlyOrder(levels: Levels, events: seq<Happening>, c: Command, o: OrderId)
    requires c.CreateOrder? && forall d :: Submit(d) in events ==> d == c
    requires Placed(FactsOf(Play(levels, events).state), o)
    ensures o == c.orderId && LinesOf(FactsOf(Play(levels, events).state), o) == ReservationLines(c.items)
  {
    hide Play, Exec;
    var s := Play(levels, events).state;
    var e := FactsOf(s).OrderAt(o)[0];
    PlaysAreRuns(levels, events);
    var actions :| Exec(Init(levels), actions) == s;
    OrdersAreTraced(levels, actions, o);
    OnTopicExactlyIfSubmitted(levels, events, CreateOrder(o, e.customerId, e.items));
  }

  /** The table covers the one order submitted. */
  lemma OneOrderIsCovered(levels: Levels, events: seq<Happening>, c: Command)
    requires c.CreateOrder? && Fits(levels, c.items)
    requires forall d :: Submit(d) in events ==> d == c
    ensures Covers(levels, FactsOf(Play(levels, events).state))
  {
    hide Play, Inv;
    var f, lines := FactsOf(Play(levels, events).state), ReservationLines(c.items);
    PlayIsGood(levels, events);
    forall o ensures Askable(levels, LinesOf(f, o)) {
      if Placed(f, o) { OnlyOrder(levels, events, c, o); }
    }
    forall o | o in f.orders ensures o in {c.orderId} && LinesOf(f, o) == lines {
      OrderIsPlaced(Play(levels, events).state, o);
      OnlyOrder(levels, events, c, o);
    }
    forall sku | sku in levels ensures Wanted(f, sku) <= Demand(lines, sku) {
      var g := (o: OrderId) => Demand(lines, sku);
      DemandNonNegative(lines, sku);
      SumAtMost(f.orders.Keys, {c.orderId}, Wants(f, sku), g);
      SumExtract({c.orderId}, g, c.orderId);
    }
  }

  /** The run starts with the order's submission and comes to rest with the order CONFIRMED. */
  ghost predicate Confirms(levels: Levels, c: Command, events: seq<Happening>)
    requires c.CreateOrder?
  {
    && events != [] && events[0] == Submit(c)
    && AtRest(Play(levels, events))
    && OrderStatusOf(Play(levels, events).state, c.orderId) == OD.CONFIRMED
  }

  /** For every order that fits the table there is such a run. */
  lemma SomeRunConfirms(levels: Levels, c: Command)
    requires c.CreateOrder? && Fits(levels, c.items)
    ensures exists events :: Confirms(levels, c, events)
  {
    hide Covers, Play;
    var more := EveryRunCanFinish(levels, [Submit(c)], Accept(0));
    var events := [Submit(c)] + more;
    forall i | 0 <= i < |events| ensures events[i] == Submit(c) || Decides(events[i], Accept(0)) {
      if i > 0 { assert events[i] == more[i - 1]; }
    }
    OnTopicExactlyIfSubmitted(levels, events, c);
    PlayIsGood(levels, events);
    OneOrderIsCovered(levels, events, c);
    assert Published(Play(levels, events).state, Cmd(c)) && Handled(Play(levels, events), Cmd(c));
    CoveredOrdersAreConfirmed(levels, events, c.orderId);
    assert Confirms(levels, c, events);
  }
}

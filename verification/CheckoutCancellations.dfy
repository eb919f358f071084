/** Why orders are cancelled in the composed system: nothing but a short table or a refusing gateway cancels one. */
module CheckoutCancellations {
  import opened Basics
  import opened Contracts
  import opened Persistence
  import opened StockLedger
  import opened InventoryService
  import opened PaymentService
  import opened Checkout
  import opened CheckoutFacts
  import opened CheckoutInvariant
  import opened CheckoutTheorems
  import opened CheckoutStock
  import OD = OrderDomain
  import SD = StockDomain

  /* ---- A table that covers every accepted order ---- */

  function LinesOf(f: Facts, o: OrderId): seq<ReservationLine>
  {
    if Placed(f, o) then ReservationLines(ItemsOf(f, o)) else []
  }

  function Wants(f: Facts, sku: Sku): OrderId -> int { (o: OrderId) => Demand(LinesOf(f, o), sku) }

  /** What all accepted orders together ask of a SKU. */
  ghost function Wanted(f: Facts, sku: Sku): int { Sum(f.orders.Keys, Wants(f, sku)) }

  predicate Askable(initial: Levels, lines: seq<ReservationLine>)
  {
    PositiveQuantities(lines) && forall i :: 0 <= i < |lines| ==> lines[i].sku in initial
  }

  /** Every accepted order asks for positive quantities of SKUs there are, and there is enough for all of them. */
  ghost predicate Covers(initial: Levels, f: Facts)
  {
    && (forall o :: Askable(initial, LinesOf(f, o)))
    && (forall sku :: sku in initial ==> initial[sku].qtyReserved + Wanted(f, sku) <= initial[sku].qtyAvailable)
  }

  lemma {:induction false} SumAtMost<K(!new)>(keys: set<K>, all: set<K>, f: K -> int, g: K -> int)
    requires keys <= all
    requires forall k :: k in keys ==> f(k) <= g(k)
    requires forall k :: k in all ==> 0 <= g(k)
    ensures Sum(keys, f) <= Sum(all, g)
    decreases |keys|
  {
    if keys == {} {
      SumNonNegative(all, g);
    } else {
      var k :| k in keys;
      SumExtract(keys, f, k);
      SumExtract(all, g, k);
      SumAtMost(keys - {k}, all - {k}, f, g);
    }
  }

  lemma LinesStay(f: Facts, g: Facts, o: OrderId)
    requires FactsOk(f) && Extends(f, g) && o in f.orders
    ensures o in g.orders && LinesOf(g, o) == LinesOf(f, o)
  {
    assert OrderOk(f, o) && OrderKept(f, g, o);
    assert g.OrderAt(o)[0] == f.OrderAt(o)[0];
  }

  /** What covers the orders accepted later covers those accepted by now. */
  lemma CoversBefore(initial: Levels, f: Facts, g: Facts)
    requires FactsOk(f) && Extends(f, g) && Covers(initial, g)
    ensures Covers(initial, f)
  {
    forall o ensures Askable(initial, LinesOf(f, o)) {
      assert Askable(initial, LinesOf(g, o));
      if o in f.orders { LinesStay(f, g, o); }
    }
    forall sku | sku in initial ensures Wanted(f, sku) <= Wanted(g, sku) {
      forall o | o in f.orders.Keys ensures o in g.orders.Keys && Wants(f, sku)(o) <= Wants(g, sku)(o) {
        LinesStay(f, g, o);
      }
      forall o ensures 0 <= Wants(g, sku)(o) {
        assert Askable(initial, LinesOf(g, o));
        DemandNonNegative(LinesOf(g, o), sku);
      }
      SumAtMost(f.orders.Keys, g.orders.Keys, Wants(f, sku), Wants(g, sku));
    }
  }

  /* ---- No refusal without need ---- */

  function Holds(t: StockTables, sku: Sku, o: OrderId, lines: seq<ReservationLine>): OrderId -> int
  {
    (k: OrderId) => if k == o then Demand(lines, sku) else HeldBy(t.Stream(k), sku)
  }

  /** An order holds no more than it wants. */
  lemma HoldsAtMostWhatItWants(s: State, initial: Levels, k: OrderId, sku: Sku)
    requires Inv(s) && Covers(initial, FactsOf(s)) && k in s.inventory.tables.streams
    ensures k in FactsOf(s).orders && HeldBy(s.inventory.tables.Stream(k), sku) <= Wants(FactsOf(s), sku)(k)
  {
    var f := FactsOf(s);
    assert StockOk(f, k) && Askable(initial, LinesOf(f, k));
    SD.ReplayOfStream(k, f.StockAt(k));
    DemandNonNegative(LinesOf(f, k), sku);
  }

  /** What is held and what a new reservation asks for are together no more than what all orders want. */
  lemma HeldIsWanted(s: State, initial: Levels, o: OrderId, sku: Sku)
    requires Inv(s) && Covers(initial, FactsOf(s))
    requires Placed(FactsOf(s), o) && o !in s.inventory.tables.streams
    ensures Held(s.inventory.tables, sku) + Demand(LinesOf(FactsOf(s), o), sku) <= Wanted(FactsOf(s), sku)
  {
    var f, t := FactsOf(s), s.inventory.tables;
    var lines := LinesOf(f, o);
    forall k | k in t.streams.Keys + {o} ensures k in f.orders.Keys && Holds(t, sku, o, lines)(k) <= Wants(f, sku)(k) {
      if k != o { HoldsAtMostWhatItWants(s, initial, k, sku); }
    }
    forall k ensures 0 <= Wants(f, sku)(k) {
      assert Askable(initial, LinesOf(f, k));
      DemandNonNegative(LinesOf(f, k), sku);
    }
    SumAtMost(t.streams.Keys + {o}, f.orders.Keys, Holds(t, sku, o, lines), Wants(f, sku));
    SumUpdate(t.streams.Keys, k => HeldBy(t.Stream(k), sku), Holds(t, sku, o, lines), o);
  }

  lemma {:induction false} DemandAtLeast(lines: seq<ReservationLine>, i: nat)
    requires PositiveQuantities(lines) && i < |lines|
    ensures lines[i].qty <= Demand(lines, lines[i].sku)
    decreases |lines|
  {
    var n := |lines| - 1;
    DemandNonNegative(lines[..n], lines[i].sku);
    if i < n { DemandAtLeast(lines[..n], i); }
  }

  lemma CoveredIsNotShort(s: State, initial: Levels, o: OrderId)
    requires Inv(s) && Conserved(initial, s.inventory) && Covers(initial, FactsOf(s))
    requires Placed(FactsOf(s), o) && o !in s.inventory.tables.streams
    ensures Shortfall(s.inventory.levels, LinesOf(FactsOf(s), o)).None?
  {
    var lines := LinesOf(FactsOf(s), o);
    assert Askable(initial, lines);
    forall i: nat | i < |lines| ensures Refusal(s.inventory.levels, lines[i]).None? {
      HeldIsWanted(s, initial, o, lines[i].sku);
      DemandAtLeast(lines, i);
    }
    NoShortfall(s.inventory.levels, lines);
  }

  /** No reservation has failed, and a handler that found the stock short found it so for an order that has its
      reservation already. */
  ghost predicate Unrefused(s: State)
  {
    && (forall t :: t in s.threads && t.ReserveRefused? ==> FactsOf(s).StockAt(t.orderId) != [])
    && (forall o :: !Unstocked(FactsOf(s), o))
  }

  /** A handler is refused for want of stock, or was before. */
  lemma NewRefusal(s: State, a: Action, t: Thread)
    requires t in Do(s, a).threads && t !in s.threads && t.ReserveRefused?
    ensures a.Continue? && a.thread in s.threads && a.thread.ReserveChecked?
    ensures a.thread.orderId == t.orderId && Shortfall(s.inventory.levels, a.thread.lines).Some?
  {
  }

  /** A stream that turns out failed was empty, and the handler that recorded it had been refused. */
  lemma NewFailure(s: State, a: Action, o: OrderId)
    requires Inv(s) && Unstocked(FactsOf(Do(s, a)), o) && !Unstocked(FactsOf(s), o)
    ensures a.Continue? && a.thread in s.threads && a.thread.ReserveRefused? && a.thread.orderId == o
    ensures FactsOf(s).StockAt(o) == []
  {
    assert StockKept(FactsOf(s), FactsOf(Do(s, a)), o) by { DoKeeps(s, a); }
    if a.Continue? && a.thread in s.threads && MovesStock(a.thread) {
      assert ThreadOk(FactsOf(s), a.thread);
      StockStep(s, a.thread, a.mint);
      MovedStream(s.inventory, a.thread, a.mint, o);
    } else {
      OnlyThreeStepsMoveStock(s, a);
    }
  }

  lemma DoStaysUnrefused(initial: Levels, s: State, a: Action)
    requires Inv(s) && Conserved(initial, s.inventory) && Covers(initial, FactsOf(s)) && Unrefused(s)
    ensures Unrefused(Do(s, a))
  {
    var after := Do(s, a);
    DoKeeps(s, a);
    forall t | t in after.threads && t.ReserveRefused? ensures FactsOf(after).StockAt(t.orderId) != [] {
      if t !in s.threads {
        NewRefusal(s, a, t);
        assert ThreadOk(FactsOf(s), a.thread);
        if t.orderId !in s.inventory.tables.streams { CoveredIsNotShort(s, initial, t.orderId); }
        assert StockOk(FactsOf(s), t.orderId);
      }
      assert StockKept(FactsOf(s), FactsOf(after), t.orderId);
    }
    forall o ensures !Unstocked(FactsOf(after), o) {
      if Unstocked(FactsOf(after), o) { NewFailure(s, a, o); }
    }
  }

  /** No order is refused that could have been served: in every run of the interleaved system, with crashes,
      duplicates and outside releases, if the table covers every order accepted, no reservation ever fails. */
  lemma {:induction false} NoNeedlessRefusal(levels: Levels, actions: seq<Action>)
    requires Covers(levels, FactsOf(Exec(Init(levels), actions)))
    ensures Unrefused(Exec(Init(levels), actions))
    decreases |actions|
  {
    if actions != [] {
      var before, last := Exec(Init(levels), actions[..|actions| - 1]), actions[|actions| - 1];
      ReachableIsOk(levels, actions[..|actions| - 1]);
      DoKeeps(before, last);
      CoversBefore(levels, FactsOf(before), FactsOf(Do(before, last)));
      NoNeedlessRefusal(levels, actions[..|actions| - 1]);
      StockIsConserved(levels, actions[..|actions| - 1]);
      DoStaysUnrefused(levels, before, last);
    }
  }

  /* ---- A gateway that accepts ---- */

  predicate Accepts(a: Action) { a.Continue? ==> a.mint.decision.Accept? }

  predicate AllApproved(s: State) { forall o :: o in s.payments.gateway ==> s.payments.gateway[o].Approved? }

  lemma DoStaysApproved(s: State, a: Action)
    requires AllApproved(s) && Accepts(a)
    ensures AllApproved(Do(s, a))
  {
  }

  lemma {:induction false} AcceptingApproves(levels: Levels, actions: seq<Action>)
    requires forall i :: 0 <= i < |actions| ==> Accepts(actions[i])
    ensures AllApproved(Exec(Init(levels), actions))
    decreases |actions|
  {
    if actions != [] {
      AcceptingApproves(levels, actions[..|actions| - 1]);
      DoStaysApproved(Exec(Init(levels), actions[..|actions| - 1]), actions[|actions| - 1]);
    }
  }

  lemma CancelledForAReason(s: State, o: OrderId)
    requires Inv(s) && OrderStatusOf(s, o) == OD.CANCELLED
    ensures !Unrefused(s) || !AllApproved(s)
  {
    StatusIsStream(s, o);
    assert Doomed(FactsOf(s), o);
  }

  /** No order is cancelled that could have been served: in every reachable state of the interleaved system, if the
      table covers every order accepted and the gateway accepts every charge, no order is CANCELLED. */
  lemma NoNeedlessCancellation(levels: Levels, actions: seq<Action>, o: OrderId)
    requires Covers(levels, FactsOf(Exec(Init(levels), actions)))
    requires forall i :: 0 <= i < |actions| ==> Accepts(actions[i])
    ensures OrderStatusOf(Exec(Init(levels), actions), o) != OD.CANCELLED
  {
    hide Covers, Inv, Unrefused, AllApproved, Accepts, Exec;
    ReachableIsOk(levels, actions);
    NoNeedlessRefusal(levels, actions);
    AcceptingApproves(levels, actions);
    if OrderStatusOf(Exec(Init(levels), actions), o) == OD.CANCELLED {
      CancelledForAReason(Exec(Init(levels), actions), o);
    }
  }
}

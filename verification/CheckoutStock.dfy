/** Stock in the composed system: what is reserved is what the open reservations hold, and with well-formed
    orders it never exceeds what is there. */
module CheckoutStock {
  import opened Basics
  import opened Contracts
  import opened Persistence
  import opened StockLedger
  import opened InventoryService
  import opened Checkout
  import opened CheckoutFacts
  import opened CheckoutInvariant
  import opened CheckoutTheorems
  import OD = OrderDomain
  import SD = StockDomain

  /** What a reservation's stream holds of a SKU: its lines while it is RESERVED, nothing once it is RELEASED. */
  function HeldBy(stream: seq<StockEvent>, sku: Sku): int
  {
    var state := SD.Replay(stream);
    if state.status == SD.RESERVED then Demand(state.lines, sku) else 0
  }

  ghost function Held(t: StockTables, sku: Sku): int
  {
    Sum(t.streams.Keys, o => HeldBy(t.Stream(o), sku))
  }

  /** Every row's reserved quantity is what it was at the start plus what all RESERVED orders hold of it. */
  ghost predicate Conserved(initial: Levels, db: Inventory)
  {
    && db.levels.Keys == initial.Keys
    && forall sku :: sku in initial ==>
         db.levels[sku] == StockLevel(initial[sku].qtyAvailable, initial[sku].qtyReserved + Held(db.tables, sku))
  }

  /** One more event on one reservation moves what is held by the difference it makes there. */
  lemma HeldMoves(before: StockTables, after: StockTables, o: OrderId, e: StockEvent, sku: Sku)
    requires after.streams == before.streams[o := before.Stream(o) + [e]]
    ensures Held(after, sku) == Held(before, sku) + HeldBy(before.Stream(o) + [e], sku) - HeldBy(before.Stream(o), sku)
  {
    assert after.streams.Keys == before.streams.Keys + {o};
    SumUpdate(before.streams.Keys, k => HeldBy(before.Stream(k), sku), k => HeldBy(after.Stream(k), sku), o);
  }

  lemma ReserveConserves(initial: Levels, db: Inventory, o: OrderId, reservationId: ReservationId,
      lines: seq<ReservationLine>)
    requires Consistent(db.tables, SD.Replay) && Conserved(initial, db)
    ensures
      var after := ReserveTransaction(db, o, reservationId, lines);
      after.Ok? ==> Conserved(initial, after.value)
  {
    var e := InventoryReserved(reservationId, o, lines);
    var after := ReserveTransaction(db, o, reservationId, lines);
    SaveNextEffect(InventoryService.NoClash, SD.Replay, db.tables, o, [], e);
    if after.Ok? {
      assert [] + [e] == [e];
      SD.ReplayOfStream(o, [e]);
      forall sku | sku in initial ensures Held(after.value.tables, sku) == Held(db.tables, sku) + Demand(lines, sku) {
        HeldMoves(db.tables, after.value.tables, o, e, sku);
      }
    }
  }

  lemma RefusalConserves(initial: Levels, db: Inventory, o: OrderId, shortage: Shortage)
    requires Consistent(db.tables, SD.Replay) && Conserved(initial, db)
    ensures
      var after := FailureTransaction(db, o, shortage);
      after.Ok? ==> Conserved(initial, after.value)
  {
    var e := InventoryReservationFailed(o, shortage.sku, shortage.reason);
    var after := FailureTransaction(db, o, shortage);
    SaveNextEffect(InventoryService.NoClash, SD.Replay, db.tables, o, [], e);
    if after.Ok? {
      assert [] + [e] == [e];
      SD.ReplayOfStream(o, [e]);
      forall sku | sku in initial ensures Held(after.value.tables, sku) == Held(db.tables, sku) {
        HeldMoves(db.tables, after.value.tables, o, e, sku);
      }
    }
  }

  /** Also from a stale load: either the guard or the unique index throws and the decrement is rolled back, or
      the release is the one release of that reservation. */
  lemma ReleaseConserves(initial: Levels, db: Inventory, o: OrderId, loaded: seq<StockEvent>)
    requires Consistent(db.tables, SD.Replay) && Conserved(initial, db)
    requires loaded != [] && loaded <= db.tables.Stream(o) && SD.StockStream(o, db.tables.Stream(o))
    ensures
      var after := ReleaseTransaction(db, o, loaded);
      after.Ok? ==> Conserved(initial, after.value)
  {
    var after := ReleaseTransaction(db, o, loaded);
    if after.Ok? {
      var e := SD.Releasing(o, SD.Replay(loaded)).value;
      SaveNextEffect(InventoryService.NoClash, SD.Replay, db.tables, o, loaded, e);
      assert loaded == db.tables.Stream(o);
      SD.ReleaseKeepsGrammar(o, loaded);
      SD.ReplayOfStream(o, loaded);
      SD.ReplayOfStream(o, loaded + [e]);
      forall sku | sku in initial
        ensures Held(after.value.tables, sku) == Held(db.tables, sku) - Demand(SD.Replay(loaded).lines, sku)
      {
        HeldMoves(db.tables, after.value.tables, o, e, sku);
      }
    }
  }

  predicate MovesStock(t: Thread) { t.ReserveChecked? || t.ReserveRefused? || t.ReleaseLoaded? }

  lemma OnlyThreeStepsMoveStock(s: State, a: Action)
    requires !(a.Continue? && a.thread in s.threads && MovesStock(a.thread))
    ensures Do(s, a).inventory == s.inventory
  {
  }

  /** The transaction of a step that moves stock. */
  function StockTransaction(db: Inventory, t: Thread, m: Mint): Result<Inventory, InventoryError>
    requires MovesStock(t)
  {
    if t.ReserveChecked? then ReserveTransaction(db, t.orderId, m.reservationId, t.lines)
    else if t.ReserveRefused? then FailureTransaction(db, t.orderId, t.shortage)
    else ReleaseTransaction(db, t.orderId, t.stockEvents)
  }

  /** A step that moves stock is one of the three transactions, or it changes nothing. */
  lemma StockStep(s: State, t: Thread, m: Mint)
    requires MovesStock(t)
    ensures
      var done := StockTransaction(s.inventory, t, m);
      ContinueThread(s, t, m).inventory == if done.Ok? then done.value else s.inventory
  {
  }

  /** Which streams the transactions touch. */
  lemma MovedStream(db: Inventory, t: Thread, m: Mint, o: OrderId)
    requires MovesStock(t) && StockTransaction(db, t, m).Ok?
    ensures
      var before, after := db.tables.Stream(o), StockTransaction(db, t, m).value.tables.Stream(o);
      && (o != t.orderId ==> after == before)
      && (o == t.orderId && !t.ReleaseLoaded? ==> |before| == 0 && |after| == 1)
  {
  }

  lemma DoConserves(initial: Levels, s: State, a: Action)
    requires Inv(s) && Conserved(initial, s.inventory)
    ensures Conserved(initial, Do(s, a).inventory)
  {
    if a.Continue? && a.thread in s.threads && MovesStock(a.thread) {
      var t := a.thread;
      assert ThreadOk(FactsOf(s), t);
      StockStep(s, t, a.mint);
      if t.ReserveChecked? { ReserveConserves(initial, s.inventory, t.orderId, a.mint.reservationId, t.lines); }
      else if t.ReserveRefused? { RefusalConserves(initial, s.inventory, t.orderId, t.shortage); }
      else {
        assert StockOk(FactsOf(s), t.orderId);
        ReleaseConserves(initial, s.inventory, t.orderId, t.stockEvents);
      }
    } else {
      OnlyThreeStepsMoveStock(s, a);
    }
  }

  /** Stock conservation: in every reachable state qtyReserved of every SKU is its starting value plus the
      quantities of that SKU on the orders whose reservation is RESERVED. */
  lemma {:induction false} StockIsConserved(levels: Levels, actions: seq<Action>)
    ensures Conserved(levels, Exec(Init(levels), actions).inventory)
    decreases |actions|
  {
    if actions != [] {
      ReachableIsOk(levels, actions[..|actions| - 1]);
      StockIsConserved(levels, actions[..|actions| - 1]);
      DoConserves(levels, Exec(Init(levels), actions[..|actions| - 1]), actions[|actions| - 1]);
    }
  }

  /** Every order accepted asks for positive quantities, and for no SKU twice. */
  ghost predicate OrdersWellFormed(f: Facts)
  {
    forall o :: Placed(f, o) ==>
        PositiveQuantities(ReservationLines(ItemsOf(f, o))) && DistinctSkus(ReservationLines(ItemsOf(f, o)))
  }

  lemma WellFormedBefore(f: Facts, g: Facts)
    requires Extends(f, g) && OrdersWellFormed(g)
    ensures OrdersWellFormed(f)
  {
    forall o | Placed(f, o)
      ensures PositiveQuantities(ReservationLines(ItemsOf(f, o))) && DistinctSkus(ReservationLines(ItemsOf(f, o)))
    {
      EvidenceStable(f, g, o, 0);
      assert Placed(g, o) && ItemsOf(g, o) == ItemsOf(f, o);
    }
  }

  lemma HeldIsNonNegative(s: State, sku: Sku)
    requires Inv(s) && OrdersWellFormed(FactsOf(s))
    ensures Held(s.inventory.tables, sku) >= 0
  {
    var t := s.inventory.tables;
    forall o | o in t.streams.Keys ensures HeldBy(t.Stream(o), sku) >= 0 {
      assert StockOk(FactsOf(s), o);
      SD.ReplayOfStream(o, t.Stream(o));
      if t.Stream(o)[0].InventoryReserved? { DemandNonNegative(t.Stream(o)[0].lines, sku); }
    }
    SumNonNegative(t.streams.Keys, o => HeldBy(t.Stream(o), sku));
  }

  ghost predicate Below(levels: Levels) {
    forall sku :: sku in levels ==> levels[sku].qtyReserved <= levels[sku].qtyAvailable
  }

  /** A release gives back quantities that are not negative. */
  lemma ReleaseStaysBelow(db: Inventory, o: OrderId, loaded: seq<StockEvent>)
    requires Below(db.levels) && PositiveQuantities(SD.Replay(loaded).lines)
    ensures
      var after := ReleaseTransaction(db, o, loaded);
      after.Ok? ==> Below(after.value.levels)
  {
    forall sku ensures Demand(SD.Replay(loaded).lines, sku) >= 0 { DemandNonNegative(SD.Replay(loaded).lines, sku); }
  }

  lemma ReleasedLinesArePositive(f: Facts, o: OrderId, loaded: seq<StockEvent>)
    requires FactsOk(f) && OrdersWellFormed(f) && ThreadOk(f, ReleaseLoaded(o, loaded))
    ensures PositiveQuantities(SD.Replay(loaded).lines)
  {
    assert StockOk(f, o);
    SD.ReplayOfStream(o, loaded);
  }

  lemma DoStaysBelow(s: State, a: Action)
    requires Inv(s) && OrdersWellFormed(FactsOf(s)) && WithinStock(s.inventory.levels)
    ensures Below(Do(s, a).inventory.levels)
  {
    if a.Continue? && a.thread in s.threads && MovesStock(a.thread) {
      var t := a.thread;
      assert ThreadOk(FactsOf(s), t);
      StockStep(s, t, a.mint);
      if t.ReserveChecked? {
        if Shortfall(s.inventory.levels, t.lines).None? { DistinctNeverOversells(s.inventory.levels, t.lines); }
      } else if t.ReleaseLoaded? {
        ReleasedLinesArePositive(FactsOf(s), t.orderId, t.stockEvents);
        ReleaseStaysBelow(s.inventory, t.orderId, t.stockEvents);
      }
    } else {
      OnlyThreeStepsMoveStock(s, a);
    }
  }

  /** No oversell in the composed system: if every order accepted has distinct SKUs and positive quantities, then
      from any sound stock table every reachable state has 0 <= qtyReserved <= qtyAvailable for every SKU. */
  lemma {:induction false} NeverOversold(levels: Levels, actions: seq<Action>)
    requires WithinStock(levels) && OrdersWellFormed(FactsOf(Exec(Init(levels), actions)))
    ensures WithinStock(Exec(Init(levels), actions).inventory.levels)
    decreases |actions|
  {
    if actions != [] {
      var before, last := Exec(Init(levels), actions[..|actions| - 1]), actions[|actions| - 1];
      var s := Exec(Init(levels), actions);
      ReachableIsOk(levels, actions[..|actions| - 1]);
      DoKeeps(before, last);
      WellFormedBefore(FactsOf(before), FactsOf(s));
      NeverOversold(levels, actions[..|actions| - 1]);
      DoStaysBelow(before, last);
      StockIsConserved(levels, actions);
      forall sku | sku in s.inventory.levels ensures s.inventory.levels[sku].qtyReserved >= 0 {
        HeldIsNonNegative(s, sku);
      }
    }
  }

  /* ---- What a cancelled order leaves behind ---- */

  ghost predicate ReleaseAsked(s: State, o: OrderId) { exists id :: ReleaseInventory(o, id) in s.commands }

  /** A release recorded, or under way, was asked for by a command on the topic. */
  ghost predicate ReleaseTraced(s: State)
  {
    && (forall t :: t in s.threads && t.ReleaseLoaded? ==> ReleaseAsked(s, t.orderId))
    && (forall o :: |FactsOf(s).StockAt(o)| == 2 ==> ReleaseAsked(s, o))
  }

  lemma AskedStays(s: State, a: Action, o: OrderId)
    requires ReleaseAsked(s, o)
    ensures ReleaseAsked(Do(s, a), o)
  {
    var id :| ReleaseInventory(o, id) in s.commands;
    assert ReleaseInventory(o, id) in Do(s, a).commands;
  }

  lemma NewReleaseIsAsked(s: State, a: Action, t: Thread)
    requires t in Do(s, a).threads && t !in s.threads && t.ReleaseLoaded?
    ensures ReleaseAsked(s, t.orderId)
  {
    assert a.Receive? && a.command in s.commands && a.command.ReleaseInventory?;
  }

  /** A second stock event is the release a handler loaded for. */
  lemma SecondStockEventIsRelease(s: State, a: Action, o: OrderId)
    requires Inv(s) && |FactsOf(s).StockAt(o)| != 2 && |FactsOf(Do(s, a)).StockAt(o)| == 2
    ensures a.Continue? && a.thread in s.threads && a.thread.ReleaseLoaded? && a.thread.orderId == o
  {
    if a.Continue? && a.thread in s.threads && MovesStock(a.thread) {
      assert ThreadOk(FactsOf(s), a.thread);
      StockStep(s, a.thread, a.mint);
      MovedStream(s.inventory, a.thread, a.mint, o);
    } else {
      OnlyThreeStepsMoveStock(s, a);
    }
  }

  lemma DoTracesReleases(s: State, a: Action)
    requires Inv(s) && ReleaseTraced(s)
    ensures ReleaseTraced(Do(s, a))
  {
    var after := Do(s, a);
    forall t | t in after.threads && t.ReleaseLoaded? ensures ReleaseAsked(after, t.orderId) {
      if t !in s.threads { NewReleaseIsAsked(s, a, t); }
      AskedStays(s, a, t.orderId);
    }
    forall o | |FactsOf(after).StockAt(o)| == 2 ensures ReleaseAsked(after, o) {
      if |FactsOf(s).StockAt(o)| != 2 { SecondStockEventIsRelease(s, a, o); }
      AskedStays(s, a, o);
    }
  }

  lemma {:induction false} ReleasesAreTraced(levels: Levels, actions: seq<Action>)
    ensures ReleaseTraced(Exec(Init(levels), actions))
    decreases |actions|
  {
    if actions != [] {
      ReachableIsOk(levels, actions[..|actions| - 1]);
      ReleasesAreTraced(levels, actions[..|actions| - 1]);
      DoTracesReleases(Exec(Init(levels), actions[..|actions| - 1]), actions[|actions| - 1]);
    }
  }

  lemma CancelledReservation(s: State, o: OrderId)
    requires Inv(s) && OrderStatusOf(s, o) == OD.CANCELLED
    ensures s.inventory.tables.Head(o).Some?
    ensures s.inventory.tables.Head(o).value.InventoryReserved? <==> o in s.payments.gateway
    ensures |FactsOf(s).StockAt(o)| <= 2 && o in s.inventory.tables.rows
    ensures s.inventory.tables.rows[o].state.status == SD.RESERVED <==>
        o in s.payments.gateway && |FactsOf(s).StockAt(o)| == 1
  {
    var f := FactsOf(s);
    StatusIsStream(s, o);
    if o in f.gateway { assert GatewayOk(f, o); }
    assert StockOk(f, o);
    SD.ReplayOfStream(o, f.StockAt(o));
  }

  /** What a cancelled order leaves behind, in every reachable state. The documentation has a declined payment
      release the reservation. As shipped, a CANCELLED order has a reservation outcome, it is RESERVED exactly if
      the order ever reached the gateway, and unless somebody outside asked for its release it then still holds
      its stock. */
  lemma CancelledHoldsStockExactlyWhenCharging(levels: Levels, actions: seq<Action>, o: OrderId)
    requires OrderStatusOf(Exec(Init(levels), actions), o) == OD.CANCELLED
    ensures
      var s := Exec(Init(levels), actions);
      && s.inventory.tables.Head(o).Some? && o in s.inventory.tables.rows
      && (s.inventory.tables.Head(o).value.InventoryReserved? <==> o in s.payments.gateway)
      && ((forall i, id :: 0 <= i < |actions| ==> actions[i] != Issue(ReleaseInventory(o, id))) ==>
            (s.inventory.tables.rows[o].state.status == SD.RESERVED <==> o in s.payments.gateway))
  {
    hide Exec, Inv;
    var s := Exec(Init(levels), actions);
    ReachableIsOk(levels, actions);
    ReleasesAreTraced(levels, actions);
    CancelledReservation(s, o);
    if |FactsOf(s).StockAt(o)| == 2 {
      var id :| ReleaseInventory(o, id) in s.commands;
      UndoingComesFromOutside(levels, actions, ReleaseInventory(o, id));
    }
  }
}

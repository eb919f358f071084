/** The reservation aggregate, one per order: RESERVED and perhaps RELEASED, or FAILED. */
module StockDomain {
  import opened Basics
  import opened Contracts
  import opened EventSourcing

  datatype ReservationStatus = UNINITIALIZED | RESERVED | FAILED | RELEASED

  datatype StockState = StockState(status: ReservationStatus, orderId: OrderId, reservationId: Option<ReservationId>,
                                   lines: seq<ReservationLine>, failedSku: Option<Sku>,
                                   failReason: Option<ShortfallReason>)

  const BLANK_STATE := StockState(UNINITIALIZED, 0, None, [], None, None)

  function When(state: StockState, e: StockEvent): StockState
  {
    match e
    case InventoryReserved(reservationId, orderId, lines) =>
      StockState(RESERVED, orderId, Some(reservationId), lines, None, None)
    case InventoryReservationFailed(orderId, sku, reason) =>
      state.(status := FAILED, orderId := orderId, failedSku := Some(sku), failReason := Some(reason))
    case InventoryReleased(_, _) => state.(status := RELEASED)
  }

  function Replay(events: seq<StockEvent>): StockState { Fold(When, BLANK_STATE, events) }

  /** release: None when the guard throws ReservationAlreadyFinalizedError. */
  function Releasing(id: OrderId, state: StockState): Option<StockEvent>
  {
    if state.status != RESERVED then None else Some(InventoryReleased(state.reservationId, id))
  }

  /** The only streams a reservation may have. */
  predicate StockStream(id: OrderId, events: seq<StockEvent>)
  {
    && 1 <= |events| <= 2
    && (events[0].InventoryReserved? || events[0].InventoryReservationFailed?) && events[0].orderId == id
    && (|events| == 2 ==>
          && events[0].InventoryReserved? && events[1].InventoryReleased?
          && events[1].orderId == id && events[1].releasedReservationId == Some(events[0].reservationId))
  }

  lemma ReplayOfStream(id: OrderId, events: seq<StockEvent>)
    requires StockStream(id, events)
    ensures
      var s, first := Replay(events), events[0];
      && s.status == (if |events| == 2 then RELEASED else if first.InventoryReserved? then RESERVED else FAILED)
      && s.lines == (if first.InventoryReserved? then first.lines else [])
      && s.reservationId == (if first.InventoryReserved? then Some(first.reservationId) else None)
      && s.failedSku == (if s.status == FAILED then Some(first.sku) else None)
      && s.failReason == (if s.status == FAILED then Some(first.shortfall) else None)
      && s.orderId == id
  {
    FoldSnoc(When, BLANK_STATE, [], events[0]);
    assert [] + [events[0]] == [events[0]];
    if |events| == 1 {
      assert events == [events[0]];
    } else {
      FoldSnoc(When, BLANK_STATE, [events[0]], events[1]);
      assert events == [events[0]] + [events[1]];
    }
  }

  /** release extends exactly the streams that are only RESERVED, so stock is given back at most once. */
  lemma ReleaseKeepsGrammar(id: OrderId, events: seq<StockEvent>)
    requires StockStream(id, events)
    ensures Releasing(id, Replay(events)).Some? <==> |events| == 1 && events[0].InventoryReserved?
    ensures Releasing(id, Replay(events)).Some? ==> StockStream(id, events + [Releasing(id, Replay(events)).value])
  {
    ReplayOfStream(id, events);
  }

  type StockAggregate = AggregateRoot<StockState, StockEvent>

  ghost predicate IsStock(a: StockAggregate) { a.reducer == When && a.blank == BLANK_STATE }

  /** The two ways a reservation attempt is recorded. */
  method Record(orderId: OrderId, e: StockEvent) returns (a: StockAggregate)
    ensures fresh(a) && IsStock(a) && a.id == orderId && a.version == 1
    ensures a.uncommitted == [e] && a.Tracks([]) && a.state == Replay([e])
  {
    a := new AggregateRoot(orderId, BLANK_STATE, When);
    a.Apply(e);
    assert [] + a.uncommitted == [e];
  }

  method Reserved(orderId: OrderId, reservationId: ReservationId, lines: seq<ReservationLine>)
    returns (a: StockAggregate)
    ensures fresh(a) && IsStock(a) && a.id == orderId && a.version == 1
    ensures a.uncommitted == [InventoryReserved(reservationId, orderId, lines)]
    ensures StockStream(orderId, a.uncommitted) && a.Tracks([]) && a.state == Replay(a.uncommitted)
  {
    a := Record(orderId, InventoryReserved(reservationId, orderId, lines));
  }

  method Failed(orderId: OrderId, sku: Sku, reason: ShortfallReason) returns (a: StockAggregate)
    ensures fresh(a) && IsStock(a) && a.id == orderId && a.version == 1
    ensures a.uncommitted == [InventoryReservationFailed(orderId, sku, reason)]
    ensures StockStream(orderId, a.uncommitted) && a.Tracks([]) && a.state == Replay(a.uncommitted)
  {
    a := Record(orderId, InventoryReservationFailed(orderId, sku, reason));
  }

  method Release(a: StockAggregate) returns (ok: bool)
    requires IsStock(a)
    modifies a
    ensures ok <==> old(a.state.status) == RESERVED
    ensures !ok ==> unchanged(a)
    ensures ok ==>
      && a.uncommitted == old(a.uncommitted) + [InventoryReleased(old(a.state.reservationId), a.id)]
      && a.state == old(a.state).(status := RELEASED)
      && a.version == old(a.version) + 1
      && forall stored :: old(a.Tracks(stored)) ==> a.Tracks(stored)
  {
    if a.state.status != RESERVED {
      return false;
    }
    a.Apply(InventoryReleased(a.state.reservationId, a.id));
    ok := true;
  }
}

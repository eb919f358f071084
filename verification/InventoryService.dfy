/** inventory-service: reserving and releasing stock, each in one transaction with the event it records. */
module InventoryService {
  import opened Basics
  import opened Contracts
  import opened EventSourcing
  import opened Persistence
  import opened StockDomain
  import opened StockLedger

  type StockTables = Tables<StockEvent, StockState>

  datatype Inventory = Inventory(tables: StockTables, levels: Levels)

  predicate NoClash(a: StockState, b: StockState) { false }

  datatype InventoryError = NotFound | Conflict | AlreadyFinalized | Insufficient(shortage: Shortage)

  function SaveStock(t: StockTables, orderId: OrderId, loaded: seq<StockEvent>, e: StockEvent): Option<StockTables>
  {
    SaveNext(NoClash, Replay, t, orderId, loaded, e)
  }

  /** Check and increment the lines and record RESERVED, or change nothing. */
  function ReserveTransaction(db: Inventory, orderId: OrderId, reservationId: ReservationId,
      lines: seq<ReservationLine>)
    : Result<Inventory, InventoryError>
  {
    match Shortfall(db.levels, lines)
    case Some(shortage) => Err(Insufficient(shortage))
    case None =>
      match SaveStock(db.tables, orderId, [], InventoryReserved(reservationId, orderId, lines))
      case None => Err(Conflict)
      case Some(t) => Ok(Inventory(t, Incremented(db.levels, lines)))
  }

  /** The separate transaction that records a refused attempt. */
  function FailureTransaction(db: Inventory, orderId: OrderId, shortage: Shortage): Result<Inventory, InventoryError>
  {
    match SaveStock(db.tables, orderId, [], InventoryReservationFailed(orderId, shortage.sku, shortage.reason))
    case None => Err(Conflict)
    case Some(t) => Ok(db.(tables := t))
  }

  /** Decrement the loaded lines, then release the loaded aggregate and save it: a throw rolls all of it back. */
  function ReleaseTransaction(db: Inventory, orderId: OrderId, loaded: seq<StockEvent>):
    Result<Inventory, InventoryError>
  {
    match Releasing(orderId, Replay(loaded))
    case None => Err(AlreadyFinalized)
    case Some(e) =>
      match SaveStock(db.tables, orderId, loaded, e)
      case None => Err(Conflict)
      case Some(t) => Ok(Inventory(t, Decremented(db.levels, Replay(loaded).lines)))
  }

  function HandleReserve(db: Inventory, orderId: OrderId, lines: seq<ReservationLine>, reservationId: ReservationId)
    : Result<Inventory, InventoryError>
  {
    if orderId in db.tables.rows then Ok(db)
    else
      var reserved := ReserveTransaction(db, orderId, reservationId, lines);
      if reserved.Err? && reserved.error.Insufficient? then FailureTransaction(db, orderId, reserved.error.shortage)
      else reserved
  }

  function HandleRelease(db: Inventory, orderId: OrderId): Result<Inventory, InventoryError>
  {
    var loaded := db.tables.Stream(orderId);
    if loaded == [] then Err(NotFound)
    else
      var released := ReleaseTransaction(db, orderId, loaded);
      if released == Err(AlreadyFinalized) then Ok(db) else released
  }

  /** The whole request is reserved under a new id. */
  ghost predicate Reserves(db: Inventory, after: Inventory, orderId: OrderId, reservationId: ReservationId,
      lines: seq<ReservationLine>)
  {
    && Appended(db.tables, after.tables, orderId, InventoryReserved(reservationId, orderId, lines),
                StockState(RESERVED, orderId, Some(reservationId), lines, None, None))
    && after.levels.Keys == db.levels.Keys
    && forall sku :: sku in db.levels ==>
         after.levels[sku] == StockLevel(db.levels[sku].qtyAvailable, db.levels[sku].qtyReserved + Demand(lines, sku))
  }

  /** The request is refused for this shortage, and no stock moves. */
  ghost predicate Refuses(db: Inventory, after: Inventory, orderId: OrderId, shortage: Shortage)
  {
    && Appended(db.tables, after.tables, orderId,
                InventoryReservationFailed(orderId, shortage.sku, shortage.reason),
                StockState(FAILED, orderId, None, [], Some(shortage.sku), Some(shortage.reason)))
    && after.levels == db.levels
  }

  /** What was reserved is given back. */
  ghost predicate Releases(db: Inventory, after: Inventory, orderId: OrderId, reserved: StockEvent)
    requires reserved.InventoryReserved?
  {
    var id, lines := Some(reserved.reservationId), reserved.lines;
    && Appended(db.tables, after.tables, orderId, InventoryReleased(id, orderId),
                StockState(RELEASED, orderId, id, lines, None, None))
    && after.levels.Keys == db.levels.Keys
    && forall sku :: sku in db.levels ==>
         after.levels[sku] == StockLevel(db.levels[sku].qtyAvailable, db.levels[sku].qtyReserved - Demand(lines, sku))
  }

  /** No attempt to reserve for the order has been recorded. */
  predicate Untried(db: Inventory, orderId: OrderId)
  {
    orderId !in db.tables.rows && db.tables.Stream(orderId) == []
  }

  predicate Holding(db: Inventory, orderId: OrderId)
  {
    && |db.tables.Stream(orderId)| == 1 && StockStream(orderId, db.tables.Stream(orderId))
    && db.tables.Stream(orderId)[0].InventoryReserved?
  }

  predicate NotHolding(db: Inventory, orderId: OrderId)
  {
    db.tables.Stream(orderId) != [] && StockStream(orderId, db.tables.Stream(orderId)) && !Holding(db, orderId)
  }

  /** An order without a recorded attempt gets everything it asks for if every line is covered, and otherwise a
      refusal that names its first line that is not. */
  lemma ReserveEffect(db: Inventory, orderId: OrderId, lines: seq<ReservationLine>, reservationId: ReservationId)
    ensures
      var r, refused := HandleReserve(db, orderId, lines, reservationId), Shortfall(db.levels, lines);
      && (orderId in db.tables.rows ==> r == Ok(db))
      && (orderId !in db.tables.rows && db.tables.Stream(orderId) != [] ==> r == Err(Conflict))
      && (Untried(db, orderId) ==> r.Ok? && ReportsFirst(db.levels, lines, refused))
      && (Untried(db, orderId) && refused.None? ==> Reserves(db, r.value, orderId, reservationId, lines))
      && (Untried(db, orderId) && refused.Some? ==> Refuses(db, r.value, orderId, refused.value))
  {
    var refused := Shortfall(db.levels, lines);
    FirstShortage(db.levels, lines);
    var e := if refused.None? then InventoryReserved(reservationId, orderId, lines)
             else InventoryReservationFailed(orderId, refused.value.sku, refused.value.reason);
    ReplayOfStream(orderId, [e]);
    assert [] + [e] == [e] && [e][..0] == [];
    assert OutboxRows(orderId, [e]) == [OutboxRow(orderId, e)];
  }

  /** A release that loaded its reservation before somebody else released it conflicts; nothing moves. */
  lemma StaleReleaseConflicts(db: Inventory, orderId: OrderId, loaded: seq<StockEvent>)
    requires |loaded| == 1 && loaded < db.tables.Stream(orderId) && StockStream(orderId, loaded)
    requires loaded[0].InventoryReserved?
    ensures ReleaseTransaction(db, orderId, loaded) == Err(Conflict)
  {
    ReplayOfStream(orderId, loaded);
  }

  lemma ReleaseEffect(db: Inventory, orderId: OrderId)
    ensures
      var r, stream := HandleRelease(db, orderId), db.tables.Stream(orderId);
      && (stream == [] ==> r == Err(NotFound))
      && (Holding(db, orderId) ==> r.Ok? && Releases(db, r.value, orderId, stream[0]))
      && (NotHolding(db, orderId) ==> r == Ok(db))
  {
    var stream := db.tables.Stream(orderId);
    if stream != [] && StockStream(orderId, stream) {
      ReplayOfStream(orderId, stream);
      if Holding(db, orderId) {
        var e := InventoryReleased(Some(stream[0].reservationId), orderId);
        ReplayOfStream(orderId, stream + [e]);
        assert OutboxRows(orderId, [e]) == [OutboxRow(orderId, e)];
      }
    }
  }

  class InventoryHandlers {
    const stock: StockRepository
    const repository: EventStoreRepository<StockState, StockEvent>

    ghost predicate Wired() {
      repository.blank == BLANK_STATE && repository.reducer == When && repository.clash == NoClash
    }

    ghost predicate Shows(db: Inventory)
      reads stock, repository
    {
      repository.Shows(db.tables) && stock.levels == db.levels
    }

    constructor (stock: StockRepository, repository: EventStoreRepository<StockState, StockEvent>)
      ensures this.stock == stock && this.repository == repository
    {
      this.stock, this.repository := stock, repository;
    }

    /** dataSource.transaction around the reservation: both tables are restored when anything inside throws. */
    method ReserveInTransaction(orderId: OrderId, lines: seq<ReservationLine>, reservationId: ReservationId,
        ghost db: Inventory)
      returns (error: Option<InventoryError>)
      requires Wired() && Shows(db)
      modifies stock, repository
      ensures match ReserveTransaction(db, orderId, reservationId, lines)
        case Ok(after) => error == None && Shows(after)
        case Err(e) => error == Some(e) && Shows(db)
    {
      hide ReportsFirst, Incremented, Shortfall;
      var levels, savepoint := stock.levels, repository.Current();
      var refused := stock.ReserveLinesWithinTransaction(lines);
      if refused.Some? {
        stock.levels := levels;
        return Some(Insufficient(refused.value));
      }
      var aggregate := Reserved(orderId, reservationId, lines);
      var saved := repository.SaveWithinTransaction(aggregate, db.tables);
      assert [] + [InventoryReserved(reservationId, orderId, lines)] ==
          [InventoryReserved(reservationId, orderId, lines)];
      if !saved {
        stock.levels := levels;
        repository.RollbackTo(savepoint);
        return Some(Conflict);
      }
      error := None;
    }

    method ExecuteReserve(orderId: OrderId, lines: seq<ReservationLine>, reservationId: ReservationId,
        ghost db: Inventory)
      returns (error: Option<InventoryError>)
      requires Wired() && Shows(db)
      modifies stock, repository
      ensures match HandleReserve(db, orderId, lines, reservationId)
        case Ok(after) => error == None && Shows(after)
        case Err(e) => error == Some(e) && Shows(db)
      ensures orderId in db.tables.rows ==> error == None && Shows(db)
      ensures Untried(db, orderId) ==>
        var after, refused := HandleReserve(db, orderId, lines, reservationId).value, Shortfall(db.levels, lines);
        && error == None && ReportsFirst(db.levels, lines, refused)
        && (refused.None? ==> Reserves(db, after, orderId, reservationId, lines))
        && (refused.Some? ==> Refuses(db, after, orderId, refused.value))
    {
      ReserveEffect(db, orderId, lines, reservationId);
      if orderId in repository.projection {
        return None;
      }
      error := ReserveInTransaction(orderId, lines, reservationId, db);
      if error.Some? && error.value.Insufficient? {
        error := RecordFailure(orderId, error.value.shortage, db);
      }
    }

    method RecordFailure(orderId: OrderId, shortage: Shortage, ghost db: Inventory)
      returns (error: Option<InventoryError>)
      requires Wired() && Shows(db)
      modifies repository
      ensures match FailureTransaction(db, orderId, shortage)
        case Ok(after) => error == None && Shows(after)
        case Err(e) => error == Some(e) && Shows(db)
    {
      var failureAggregate := Failed(orderId, shortage.sku, shortage.reason);
      ghost var e := InventoryReservationFailed(orderId, shortage.sku, shortage.reason);
      assert [] + [e] == [e];
      var saved := repository.Save(failureAggregate, db.tables);
      error := if saved then None else Some(Conflict);
    }

    /** The transaction of a release, for an aggregate that may have been loaded some time ago. */
    method ReleaseInTransaction(aggregate: StockAggregate, ghost loaded: seq<StockEvent>, ghost db: Inventory)
      returns (error: Option<InventoryError>)
      requires Wired() && Shows(db) && IsStock(aggregate)
      requires aggregate.uncommitted == [] && aggregate.Tracks(loaded) && loaded <= db.tables.Stream(aggregate.id)
      modifies stock, repository, aggregate
      ensures match ReleaseTransaction(db, aggregate.id, loaded)
        case Ok(after) => error == None && Shows(after)
        case Err(e) => error == Some(e) && Shows(db)
    {
      assert loaded + [] == loaded;
      assert aggregate.state == Replay(loaded);
      var levels, savepoint := stock.levels, repository.Current();
      stock.ReleaseLinesWithinTransaction(aggregate.state.lines);
      var ok := Release(aggregate);
      if !ok {
        stock.levels := levels;
        return Some(AlreadyFinalized);
      }
      assert aggregate.Tracks(loaded) && aggregate.uncommitted == [Releasing(aggregate.id, Replay(loaded)).value];
      var saved := repository.SaveWithinTransaction(aggregate, db.tables);
      if !saved {
        stock.levels := levels;
        repository.RollbackTo(savepoint);
        return Some(Conflict);
      }
      error := None;
    }

    method ExecuteRelease(orderId: OrderId, ghost db: Inventory) returns (error: Option<InventoryError>)
      requires Wired() && Shows(db)
      modifies stock, repository
      ensures match HandleRelease(db, orderId)
        case Ok(after) => error == None && Shows(after)
        case Err(e) => error == Some(e) && Shows(db)
      ensures db.tables.Stream(orderId) == [] ==> error == Some(NotFound) && Shows(db)
      ensures Holding(db, orderId) ==>
        error == None && Releases(db, HandleRelease(db, orderId).value, orderId, db.tables.Stream(orderId)[0])
      ensures NotHolding(db, orderId) ==> error == None && Shows(db)
    {
      ReleaseEffect(db, orderId);
      var aggregate := repository.LoadAggregate(orderId, db.tables);
      if aggregate == null {
        return Some(NotFound);
      }
      error := ReleaseInTransaction(aggregate, db.tables.Stream(orderId), db);
      if error == Some(AlreadyFinalized) {
        error := None;
      }
    }
  }
}

/** order-service: the handlers of CreateOrder, ConfirmOrder and CancelOrder. */
module OrderService {
  import opened Basics
  import opened Contracts
  import opened EventSourcing
  import opened Persistence
  import opened OrderDomain

  type OrderTables = Tables<OrderEvent, OrderState>

  predicate NoClash(a: OrderState, b: OrderState) { false }

  /** A rethrown exception: the offset is not committed and the command is delivered again. */
  datatype HandlerError = NotFound | Conflict

  function SaveOrder(t: OrderTables, orderId: OrderId, loaded: seq<OrderEvent>, e: OrderEvent): Option<OrderTables>
  {
    SaveNext(NoClash, Replay, t, orderId, loaded, e)
  }

  /** A conflict means the order exists already: a redelivery, and nothing changes. */
  function HandleCreate(t: OrderTables, orderId: OrderId, customerId: CustomerId, items: seq<OrderLineItem>):
    OrderTables
  {
    var saved := SaveOrder(t, orderId, [], OrderCreated(orderId, customerId, items, Total(items)));
    if saved.Some? then saved.value else t
  }

  /** Saving what a domain call on an aggregate hydrated from `loaded` raised; a throwing guard changes nothing. */
  function FinishOrder(t: OrderTables, orderId: OrderId, loaded: seq<OrderEvent>, raised: Option<OrderEvent>):
    Result<OrderTables, HandlerError>
  {
    match raised
    case None => Ok(t)
    case Some(e) =>
      match SaveOrder(t, orderId, loaded, e)
      case None => Err(Conflict)
      case Some(saved) => Ok(saved)
  }

  function HandleConfirm(t: OrderTables, orderId: OrderId, paymentId: Option<PaymentId>):
    Result<OrderTables, HandlerError>
  {
    var loaded := t.Stream(orderId);
    if loaded == [] then Err(NotFound)
    else FinishOrder(t, orderId, loaded, Confirming(orderId, Replay(loaded), paymentId))
  }

  function HandleCancel(t: OrderTables, orderId: OrderId, reason: string): Result<OrderTables, HandlerError>
  {
    var loaded := t.Stream(orderId);
    if loaded == [] then Err(NotFound) else FinishOrder(t, orderId, loaded, Cancelling(orderId, Replay(loaded), reason))
  }

  /** The order is stored and not decided yet. */
  predicate Open(t: OrderTables, orderId: OrderId)
  {
    |t.Stream(orderId)| == 1 && OrderStream(orderId, t.Stream(orderId))
  }

  /** The order is CONFIRMED or CANCELLED. */
  predicate Decided(t: OrderTables, orderId: OrderId)
  {
    |t.Stream(orderId)| == 2 && OrderStream(orderId, t.Stream(orderId))
  }

  ghost predicate Creates(t: OrderTables, after: OrderTables, orderId: OrderId, customerId: CustomerId,
      items: seq<OrderLineItem>)
  {
    Appended(t, after, orderId, OrderCreated(orderId, customerId, items, Price(items)),
             OrderState(CREATED, customerId, items, Price(items), None, None))
  }

  ghost predicate Confirms(t: OrderTables, after: OrderTables, orderId: OrderId, paymentId: Option<PaymentId>)
    requires Open(t, orderId)
  {
    var created := t.Stream(orderId)[0];
    Appended(t, after, orderId, OrderConfirmed(orderId, paymentId),
             OrderState(CONFIRMED, created.customerId, created.items, created.totalCents, paymentId, None))
  }

  ghost predicate Cancels(t: OrderTables, after: OrderTables, orderId: OrderId, reason: string)
    requires Open(t, orderId)
  {
    var created := t.Stream(orderId)[0];
    Appended(t, after, orderId, OrderCancelled(orderId, reason),
             OrderState(CANCELLED, created.customerId, created.items, created.totalCents, None, Some(reason)))
  }

  /** CreateOrder stores a new order at its price, and changes nothing for one that is there. */
  lemma CreateEffect(t: OrderTables, orderId: OrderId, customerId: CustomerId, items: seq<OrderLineItem>)
    ensures
      var after := HandleCreate(t, orderId, customerId, items);
      if t.Stream(orderId) == [] then Creates(t, after, orderId, customerId, items) else after == t
  {
    var e := OrderCreated(orderId, customerId, items, Total(items));
    TotalIsPrice(items);
    ReplayOfStream(orderId, [e]);
    assert [] + [e] == [e] && [e][..0] == [];
    assert OutboxRows(orderId, [e]) == [OutboxRow(orderId, e)];
  }

  /** ConfirmOrder records the payment of an open order, skips a decided one and misses an unknown one. */
  lemma ConfirmEffect(t: OrderTables, orderId: OrderId, paymentId: Option<PaymentId>)
    ensures
      var r := HandleConfirm(t, orderId, paymentId);
      && (t.Stream(orderId) == [] ==> r == Err(NotFound))
      && (Open(t, orderId) ==> r.Ok? && Confirms(t, r.value, orderId, paymentId))
      && (Decided(t, orderId) ==> r == Ok(t))
  {
    var stream, e := t.Stream(orderId), OrderConfirmed(orderId, paymentId);
    if stream != [] && OrderStream(orderId, stream) {
      ReplayOfStream(orderId, stream);
      if |stream| == 1 { ReplayOfStream(orderId, stream + [e]); }
    }
    assert OutboxRows(orderId, [e]) == [OutboxRow(orderId, e)];
  }

  /** CancelOrder records its reason on an open order, skips a decided one and misses an unknown one. */
  lemma CancelEffect(t: OrderTables, orderId: OrderId, reason: string)
    ensures
      var r := HandleCancel(t, orderId, reason);
      && (t.Stream(orderId) == [] ==> r == Err(NotFound))
      && (Open(t, orderId) ==> r.Ok? && Cancels(t, r.value, orderId, reason))
      && (Decided(t, orderId) ==> r == Ok(t))
  {
    var stream, e := t.Stream(orderId), OrderCancelled(orderId, reason);
    if stream != [] && OrderStream(orderId, stream) {
      ReplayOfStream(orderId, stream);
      if |stream| == 1 { ReplayOfStream(orderId, stream + [e]); }
    }
    assert OutboxRows(orderId, [e]) == [OutboxRow(orderId, e)];
  }

  class OrderHandlers {
    const repository: EventStoreRepository<OrderState, OrderEvent>

    ghost predicate Wired() {
      repository.blank == BLANK_STATE && repository.reducer == When && repository.clash == NoClash
    }

    constructor (repository: EventStoreRepository<OrderState, OrderEvent>)
      ensures this.repository == repository
    {
      this.repository := repository;
    }

    method ExecuteCreate(orderId: OrderId, customerId: CustomerId, items: seq<OrderLineItem>, ghost t: OrderTables)
      requires Wired() && repository.Shows(t)
      modifies repository
      ensures repository.Shows(HandleCreate(t, orderId, customerId, items))
      ensures t.Stream(orderId) == [] ==>
        Creates(t, HandleCreate(t, orderId, customerId, items), orderId, customerId, items)
      ensures t.Stream(orderId) != [] ==> repository.Shows(t)
    {
      CreateEffect(t, orderId, customerId, items);
      var aggregate := CreateNew(orderId, customerId, items);
      var saved := repository.Save(aggregate, t);
      assert [] + [OrderCreated(orderId, customerId, items, Total(items))] ==
          [OrderCreated(orderId, customerId, items, Total(items))];
    }

    /** The save that ends a handler: one event raised on an aggregate that may have been loaded some time ago. */
    method Finish(aggregate: OrderAggregate, ghost loaded: seq<OrderEvent>, ghost e: OrderEvent, ghost t: OrderTables)
      returns (error: Option<HandlerError>)
      requires Wired() && repository.Shows(t) && IsOrder(aggregate)
      requires aggregate.uncommitted == [e] && aggregate.Tracks(loaded) && loaded <= t.Stream(aggregate.id)
      modifies repository, aggregate
      ensures match SaveOrder(t, aggregate.id, loaded, e)
        case None => error == Some(Conflict) && repository.Shows(t)
        case Some(after) => error == None && repository.Shows(after)
    {
      var saved := repository.Save(aggregate, t);
      error := if saved then None else Some(Conflict);
    }

    method ExecuteConfirm(orderId: OrderId, paymentId: Option<PaymentId>, ghost t: OrderTables)
      returns (error: Option<HandlerError>)
      requires Wired() && repository.Shows(t)
      modifies repository
      ensures match HandleConfirm(t, orderId, paymentId)
        case Ok(after) => error == None && repository.Shows(after)
        case Err(e) => error == Some(e) && repository.Shows(t)
      ensures t.Stream(orderId) == [] ==> error == Some(NotFound) && repository.Shows(t)
      ensures Open(t, orderId) ==>
        error == None && Confirms(t, HandleConfirm(t, orderId, paymentId).value, orderId, paymentId)
      ensures Decided(t, orderId) ==> error == None && repository.Shows(t)
    {
      ConfirmEffect(t, orderId, paymentId);
      var aggregate := repository.LoadAggregate(orderId, t);
      if aggregate == null {
        return Some(NotFound);
      }
      var ok := Confirm(aggregate, paymentId);
      if !ok {
        return None;
      }
      error := Finish(aggregate, t.Stream(orderId), aggregate.uncommitted[0], t);
    }

    method ExecuteCancel(orderId: OrderId, reason: string, ghost t: OrderTables) returns (error: Option<HandlerError>)
      requires Wired() && repository.Shows(t)
      modifies repository
      ensures match HandleCancel(t, orderId, reason)
        case Ok(after) => error == None && repository.Shows(after)
        case Err(e) => error == Some(e) && repository.Shows(t)
      ensures t.Stream(orderId) == [] ==> error == Some(NotFound) && repository.Shows(t)
      ensures Open(t, orderId) ==>
        error == None && Cancels(t, HandleCancel(t, orderId, reason).value, orderId, reason)
      ensures Decided(t, orderId) ==> error == None && repository.Shows(t)
    {
      CancelEffect(t, orderId, reason);
      var aggregate := repository.LoadAggregate(orderId, t);
      if aggregate == null {
        return Some(NotFound);
      }
      var ok := Cancel(aggregate, reason);
      if !ok {
        return None;
      }
      error := Finish(aggregate, t.Stream(orderId), aggregate.uncommitted[0], t);
    }
  }
}

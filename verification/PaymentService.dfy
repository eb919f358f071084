/** payment-service: one payment attempt per order, against a gateway that is idempotent per key. */
module PaymentService {
  import opened Basics
  import opened Contracts
  import opened EventSourcing
  import opened Persistence
  import opened PaymentDomain

  type PaymentTables = Tables<PaymentEvent, PaymentState>

  /** The gateway's answer to `authorize:<orderId>`; Approved is a charge. */
  datatype GatewayReply =
    | Approved(amountCents: int, pspReference: nat)
    | Refused(declineCode: Option<string>, reason: Option<string>)

  /** What the gateway decides when it sees a key for the first time. */
  datatype Decision = Accept(pspReference: nat) | Refuse(declineCode: Option<string>, reason: Option<string>)

  /** Everything the gateway has answered, by order. */
  type Gateway = map<OrderId, GatewayReply>

  /** A key seen before gets the recorded answer. */
  function ReplyFor(gateway: Gateway, orderId: OrderId, amountCents: int, decision: Decision): GatewayReply
  {
    if orderId in gateway then gateway[orderId]
    else
      match decision
      case Accept(pspReference) => Approved(amountCents, pspReference)
      case Refuse(code, reason) => Refused(code, reason)
  }

  function GetOr(s: Option<string>, default: string): string { if s.Some? then s.value else default }

  function PaymentOutcome(paymentId: PaymentId, orderId: OrderId, amountCents: int, reply: GatewayReply): PaymentEvent
  {
    match reply
    case Approved(_, pspReference) => PaymentAuthorized(paymentId, orderId, amountCents, pspReference)
    case Refused(code, reason) =>
      PaymentDeclined(paymentId, orderId, GetOr(code, "unknown"), GetOr(reason, "Payment declined"))
  }

  /** The unique index of payment_projection on orderId. */
  predicate SameOrder(a: PaymentState, b: PaymentState) { a.orderId == b.orderId }

  datatype Payments = Payments(tables: PaymentTables, gateway: Gateway)

  predicate HasPayment(t: PaymentTables, orderId: OrderId)
  {
    exists id :: id in t.rows && t.rows[id].state.orderId == orderId
  }

  function SavePayment(t: PaymentTables, paymentId: PaymentId, loaded: seq<PaymentEvent>, e: PaymentEvent):
    Option<PaymentTables>
  {
    SaveNext(SameOrder, Replay, t, paymentId, loaded, e)
  }

  /** Check for a payment, ask the gateway, record the answer. The gateway keeps its answer even when the save
      conflicts, which `ok` reports. */
  function HandleAuthorize(db: Payments, orderId: OrderId, amountCents: int, paymentId: PaymentId, decision: Decision):
    (Payments, bool)
  {
    if HasPayment(db.tables, orderId) then (db, true)
    else
      var reply := ReplyFor(db.gateway, orderId, amountCents, decision);
      var saved := SavePayment(db.tables, paymentId, [], PaymentOutcome(paymentId, orderId, amountCents, reply));
      (Payments(if saved.Some? then saved.value else db.tables, db.gateway[orderId := reply]), saved.Some?)
  }

  /** The gateway's answer: the recorded one, or what it decides now. */
  predicate Answered(gateway: Gateway, orderId: OrderId, amountCents: int, decision: Decision, reply: GatewayReply)
  {
    if orderId in gateway then reply == gateway[orderId]
    else
      match decision
      case Accept(pspReference) => reply == Approved(amountCents, pspReference)
      case Refuse(code, reason) => reply == Refused(code, reason)
  }

  /** The answer is recorded as it was given: a charge with the gateway's reference, a decline with its code and
      reason, or with stand-ins where it gave none. */
  ghost predicate Records(t: PaymentTables, after: PaymentTables, paymentId: PaymentId, orderId: OrderId,
      amountCents: int, reply: GatewayReply)
  {
    match reply
    case Approved(_, pspReference) =>
      Appended(t, after, paymentId, PaymentAuthorized(paymentId, orderId, amountCents, pspReference),
               PaymentState(AUTHORIZED, orderId, amountCents, Some(pspReference), None, None))
    case Refused(given, why) =>
      var code := if given.Some? then given.value else "unknown";
      var reason := if why.Some? then why.value else "Payment declined";
      Appended(t, after, paymentId, PaymentDeclined(paymentId, orderId, code, reason),
               PaymentState(DECLINED, orderId, 0, None, Some(code), Some(reason)))
  }

  lemma OutcomeEffect(t: PaymentTables, paymentId: PaymentId, orderId: OrderId, amountCents: int, reply: GatewayReply)
    ensures
      var saved := SavePayment(t, paymentId, [], PaymentOutcome(paymentId, orderId, amountCents, reply));
      saved.Some? ==> Records(t, saved.value, paymentId, orderId, amountCents, reply)
  {
    var e := PaymentOutcome(paymentId, orderId, amountCents, reply);
    ReplayOfStream(paymentId, [e]);
    assert [] + [e] == [e];
    assert t.Stream(paymentId) == [] ==> t.Stream(paymentId) + [e] == [e];
    assert OutboxRows(paymentId, [e]) == [OutboxRow(paymentId, e)];
  }

  /** AuthorizePayment for an order without a payment, under a payment id not in use: the gateway's answer is kept
      there and recorded here. An order with a payment is skipped. */
  lemma AuthorizeEffect(db: Payments, orderId: OrderId, amountCents: int, paymentId: PaymentId, decision: Decision)
    ensures
      var r, reply := HandleAuthorize(db, orderId, amountCents, paymentId, decision),
                      ReplyFor(db.gateway, orderId, amountCents, decision);
      && Answered(db.gateway, orderId, amountCents, decision, reply)
      && (HasPayment(db.tables, orderId) ==> r == (db, true))
      && (!HasPayment(db.tables, orderId) ==> r.0.gateway == db.gateway[orderId := reply])
      && (!HasPayment(db.tables, orderId) && db.tables.Stream(paymentId) == [] ==>
            r.1 && Records(db.tables, r.0.tables, paymentId, orderId, amountCents, reply))
      && (!r.1 ==> r.0.tables == db.tables)
  {
    var reply := ReplyFor(db.gateway, orderId, amountCents, decision);
    var e := PaymentOutcome(paymentId, orderId, amountCents, reply);
    OutcomeEffect(db.tables, paymentId, orderId, amountCents, reply);
    ReplayOfStream(paymentId, [e]);
    assert [] + [e] == [e];
  }

  const REFUND_REASON := Some("Saga compensation: a later saga step failed")

  datatype PaymentError = NotFound | NoReference | Conflict | GatewayThrew

  /** What RefundPayment does to the stored payment once the gateway has been asked: a payment never charged has no
      reference to refund against and throws; one refunded already is a duplicate. */
  function HandleRefund(t: PaymentTables, paymentId: PaymentId): Result<PaymentTables, PaymentError>
  {
    var loaded := t.Stream(paymentId);
    if loaded == [] then Err(NotFound)
    else if Replay(loaded).pspReference.None? then Err(NoReference)
    else
      match Refunding(paymentId, Replay(loaded), REFUND_REASON)
      case None => Ok(t)
      case Some(e) =>
        match SavePayment(t, paymentId, loaded, e)
        case None => Err(Conflict)
        case Some(saved) => Ok(saved)
  }

  /** How a call to the gateway ends: with an answer, or by throwing before or after the gateway decided. */
  datatype CallEnd = Answers | ThrowsUndecided | ThrowsDecided

  /** AuthorizePayment when the gateway call itself may throw: nothing is recorded then, but the gateway may keep an
      answer that the next attempt will get. */
  function AttemptAuthorize(db: Payments, orderId: OrderId, amountCents: int, paymentId: PaymentId, decision: Decision,
      end: CallEnd):
    (Payments, bool)
  {
    if end == Answers || HasPayment(db.tables, orderId) then
      HandleAuthorize(db, orderId, amountCents, paymentId, decision)
    else if end == ThrowsUndecided then (db, false)
    else (db.(gateway := db.gateway[orderId := ReplyFor(db.gateway, orderId, amountCents, decision)]), false)
  }

  /** A call that threw costs nothing but the attempt: the next attempt does what it would have done at once, with the
      decision the gateway already took if it took one. */
  lemma RetryAfterThrow(db: Payments, orderId: OrderId, amountCents: int, p: PaymentId, q: PaymentId,
                        first: Decision, second: Decision, end: CallEnd)
    requires end != Answers && !HasPayment(db.tables, orderId)
    ensures
      var thrown := AttemptAuthorize(db, orderId, amountCents, p, first, end);
      && !thrown.1 && thrown.0.tables == db.tables
      && AttemptAuthorize(thrown.0, orderId, amountCents, q, second, Answers)
           == HandleAuthorize(db, orderId, amountCents, q, if end == ThrowsDecided then first else second)
  {
    var reply := ReplyFor(db.gateway, orderId, amountCents, first);
    assert db.gateway[orderId := reply][orderId := reply] == db.gateway[orderId := reply];
  }

  /** A refund the gateway carried out. Unlike a charge it has no idempotency key. */
  datatype RefundRequest = RefundRequest(pspReference: nat, amountCents: int)

  datatype RefundStore = RefundStore(tables: PaymentTables, refunds: seq<RefundRequest>)

  /** RefundPayment with the gateway's side of it: the gateway is asked before the aggregate's guard is, so it is asked
      again for a payment refunded already; when the call throws nothing is recorded. */
  function AttemptRefund(db: RefundStore, paymentId: PaymentId, amountCents: int, end: CallEnd):
    (RefundStore, Option<PaymentError>)
  {
    var loaded := db.tables.Stream(paymentId);
    if loaded == [] then (db, Some(NotFound))
    else if Replay(loaded).pspReference.None? then (db, Some(NoReference))
    else
      var request := RefundRequest(Replay(loaded).pspReference.value, amountCents);
      var asked := if end == ThrowsUndecided then db else db.(refunds := db.refunds + [request]);
      if end != Answers then (asked, Some(GatewayThrew))
      else
        match HandleRefund(db.tables, paymentId)
        case Ok(after) => (asked.(tables := after), None)
        case Err(e) => (asked, Some(e))
  }

  /** The same RefundPayment delivered again and again; `ends` says how each gateway call ended. */
  function Attempts(db: RefundStore, paymentId: PaymentId, amountCents: int, ends: seq<CallEnd>): RefundStore
  {
    if ends == [] then db
    else AttemptRefund(Attempts(db, paymentId, amountCents, ends[..|ends| - 1]), paymentId, amountCents,
                       ends[|ends| - 1]).0
  }

  /** One refund for every call that reached the gateway. */
  function CarriedOut(request: RefundRequest, ends: seq<CallEnd>): seq<RefundRequest>
  {
    if ends == [] then []
    else
      CarriedOut(request, ends[..|ends| - 1]) + (if ends[|ends| - 1] == ThrowsUndecided then [] else [request])
  }

  /** The payment was charged and is the only one of its order, as the unique index has it. */
  ghost predicate OnlyPayment(t: PaymentTables, paymentId: PaymentId)
  {
    && Consistent(t, Replay)
    && PaymentStream(paymentId, t.Stream(paymentId)) && t.Stream(paymentId)[0].PaymentAuthorized?
    && forall id :: id in t.rows && id != paymentId ==> t.rows[id].state.orderId != t.Stream(paymentId)[0].orderId
  }

  /** The whole charge is recorded as refunded. */
  ghost predicate Refunds(t: PaymentTables, after: PaymentTables, paymentId: PaymentId)
    requires t.Stream(paymentId) != [] && t.Stream(paymentId)[0].PaymentAuthorized?
  {
    var charge, why := t.Stream(paymentId)[0], Some("Saga compensation: a later saga step failed");
    Appended(t, after, paymentId, PaymentRefunded(paymentId, charge.orderId, charge.amountCents, why),
             PaymentState(REFUNDED, charge.orderId, charge.amountCents, Some(charge.pspReference), None, why))
  }

  /** A payment that does not exist, or was declined, is not refunded, and the gateway is not asked. */
  lemma NothingToRefund(db: RefundStore, paymentId: PaymentId, amountCents: int, end: CallEnd)
    ensures
      var stream, r := db.tables.Stream(paymentId), AttemptRefund(db, paymentId, amountCents, end);
      && (stream == [] ==> r == (db, Some(NotFound)))
      && (stream != [] && PaymentStream(paymentId, stream) && stream[0].PaymentDeclined? ==>
            r == (db, Some(NoReference)))
  {
    var stream := db.tables.Stream(paymentId);
    if stream != [] && PaymentStream(paymentId, stream) { ReplayOfStream(paymentId, stream); }
  }

  lemma RefundIsRecorded(t: PaymentTables, paymentId: PaymentId)
    requires OnlyPayment(t, paymentId)
    ensures
      var handled := HandleRefund(t, paymentId);
      && handled.Ok? && OnlyPayment(handled.value, paymentId)
      && |handled.value.Stream(paymentId)| == 2 && handled.value.Stream(paymentId)[0] == t.Stream(paymentId)[0]
      && (if |t.Stream(paymentId)| == 1 then Refunds(t, handled.value, paymentId) else handled.value == t)
  {
    var loaded := t.Stream(paymentId);
    ReplayOfStream(paymentId, loaded);
    if |loaded| == 1 {
      var e := Refunding(paymentId, Replay(loaded), REFUND_REASON).value;
      RefundKeepsGrammar(paymentId, loaded, REFUND_REASON);
      ReplayOfStream(paymentId, loaded + [e]);
      SaveNextEffect(SameOrder, Replay, t, paymentId, loaded, e);
      assert OutboxRows(paymentId, [e]) == [OutboxRow(paymentId, e)];
    }
  }

  lemma AttemptRefunds(db: RefundStore, paymentId: PaymentId, amountCents: int, end: CallEnd)
    requires OnlyPayment(db.tables, paymentId)
    ensures
      var charge, after := db.tables.Stream(paymentId)[0], AttemptRefund(db, paymentId, amountCents, end).0;
      && OnlyPayment(after.tables, paymentId) && after.tables.Stream(paymentId)[0] == charge
      && (|after.tables.Stream(paymentId)| == 2 <==> |db.tables.Stream(paymentId)| == 2 || end == Answers)
      && after.refunds == db.refunds +
           (if end == ThrowsUndecided then [] else [RefundRequest(charge.pspReference, amountCents)])
      && AttemptRefund(db, paymentId, amountCents, end).1 == (if end == Answers then None else Some(GatewayThrew))
  {
    hide HandleRefund, Consistent, Replay;
    ReplayOfStream(paymentId, db.tables.Stream(paymentId));
    RefundIsRecorded(db.tables, paymentId);
  }

  lemma AnsweredByNow(ends: seq<CallEnd>)
    requires ends != []
    ensures Answers in ends <==> Answers in ends[..|ends| - 1] || ends[|ends| - 1] == Answers
  {
    assert ends == ends[..|ends| - 1] + [ends[|ends| - 1]];
  }

  /** The stream records at most one refund, and one exactly if some call returned. */
  lemma {:induction false} AttemptsRecord(db: RefundStore, paymentId: PaymentId, amountCents: int, ends: seq<CallEnd>)
    requires OnlyPayment(db.tables, paymentId)
    ensures
      var after := Attempts(db, paymentId, amountCents, ends).tables;
      && OnlyPayment(after, paymentId) && after.Stream(paymentId)[0] == db.tables.Stream(paymentId)[0]
      && (|after.Stream(paymentId)| == 2 <==> |db.tables.Stream(paymentId)| == 2 || Answers in ends)
    decreases |ends|
  {
    if ends != [] {
      hide AttemptRefund, OnlyPayment;
      var init := ends[..|ends| - 1];
      AttemptsRecord(db, paymentId, amountCents, init);
      AttemptRefunds(Attempts(db, paymentId, amountCents, init), paymentId, amountCents, ends[|ends| - 1]);
      AnsweredByNow(ends);
    }
  }

  lemma Regroup<A>(a: seq<A>, b: seq<A>, c: seq<A>)
    ensures a + (b + c) == a + b + c
  {
  }

  lemma OneMoreCall(refunds: seq<RefundRequest>, request: RefundRequest, ends: seq<CallEnd>)
    requires ends != []
    ensures refunds + CarriedOut(request, ends) == refunds + CarriedOut(request, ends[..|ends| - 1]) +
        (if ends[|ends| - 1] == ThrowsUndecided then [] else [request])
  {
    var one := if ends[|ends| - 1] == ThrowsUndecided then [] else [request];
    Regroup(refunds, CarriedOut(request, ends[..|ends| - 1]), one);
  }

  /** Redelivered refunds, in any number and however the gateway calls end: the stream records at most one refund,
      and one exactly if some call returned, but every call that reached the gateway paid the customer again. */
  lemma {:induction false} EveryAttemptRefunds(db: RefundStore, paymentId: PaymentId, amountCents: int,
      ends: seq<CallEnd>)
    requires OnlyPayment(db.tables, paymentId)
    ensures
      var charge, after := db.tables.Stream(paymentId)[0], Attempts(db, paymentId, amountCents, ends);
      && OnlyPayment(after.tables, paymentId) && after.tables.Stream(paymentId)[0] == charge
      && (|after.tables.Stream(paymentId)| == 2 <==> |db.tables.Stream(paymentId)| == 2 || Answers in ends)
      && after.refunds == db.refunds + CarriedOut(RefundRequest(charge.pspReference, amountCents), ends)
    decreases |ends|
  {
    AttemptsRecord(db, paymentId, amountCents, ends);
    if ends != [] {
      hide AttemptRefund, OnlyPayment, Refunds, Appended, CarriedOut, HandleRefund;
      var init := ends[..|ends| - 1];
      AttemptsRecord(db, paymentId, amountCents, init);
      EveryAttemptRefunds(db, paymentId, amountCents, init);
      AttemptRefunds(Attempts(db, paymentId, amountCents, init), paymentId, amountCents, ends[|ends| - 1]);
      var request := RefundRequest(db.tables.Stream(paymentId)[0].pspReference, amountCents);
      OneMoreCall(db.refunds, request, ends);
    }
  }

  class PaymentGateway {
    var replies: Gateway
    var refunds: seq<RefundRequest>

    constructor ()
      ensures replies == map[] && refunds == []
    {
      replies, refunds := map[], [];
    }

    /** None is a call that throws. */
    method Authorize(orderId: OrderId, amountCents: int, decision: Decision, end: CallEnd)
      returns (answer: Option<GatewayReply>)
      modifies `replies
      ensures
        var reply := ReplyFor(old(replies), orderId, amountCents, decision);
        && answer == (if end == Answers then Some(reply) else None)
        && replies == (if end == ThrowsUndecided then old(replies) else old(replies)[orderId := reply])
    {
      if end == ThrowsUndecided {
        return None;
      }
      var reply;
      if orderId in replies {
        reply := replies[orderId];
      } else {
        reply := match decision
          case Accept(pspReference) => Approved(amountCents, pspReference)
          case Refuse(code, reason) => Refused(code, reason);
      }
      replies := replies[orderId := reply];
      answer := if end == Answers then Some(reply) else None;
    }

    /** Not ok is a call that throws. */
    method Refund(pspReference: nat, amountCents: int, end: CallEnd) returns (ok: bool)
      modifies `refunds
      ensures ok == (end == Answers)
      ensures refunds ==
        old(refunds) + (if end == ThrowsUndecided then [] else [RefundRequest(pspReference, amountCents)])
    {
      if end != ThrowsUndecided {
        refunds := refunds + [RefundRequest(pspReference, amountCents)];
      }
      ok := end == Answers;
    }
  }

  class AuthorizePaymentHandler {
    const gateway: PaymentGateway
    const repository: EventStoreRepository<PaymentState, PaymentEvent>

    ghost predicate Wired() {
      repository.blank == BLANK_STATE && repository.reducer == When && repository.clash == SameOrder
    }

    ghost predicate Shows(db: Payments)
      reads gateway, repository
    {
      repository.Shows(db.tables) && gateway.replies == db.gateway
    }

    constructor (gateway: PaymentGateway, repository: EventStoreRepository<PaymentState, PaymentEvent>)
      ensures this.gateway == gateway && this.repository == repository
    {
      this.gateway, this.repository := gateway, repository;
    }

    /** The save that ends the handler: the one event of a payment that is new. */
    method SaveNew(aggregate: PaymentAggregate, ghost e: PaymentEvent, ghost t: PaymentTables) returns (ok: bool)
      requires Wired() && repository.Shows(t) && aggregate.uncommitted == [e] && aggregate.version == 1
      requires aggregate.state == Replay([e])
      modifies repository, aggregate
      ensures match SavePayment(t, aggregate.id, [], e)
        case None => !ok && repository.Shows(t)
        case Some(after) => ok && repository.Shows(after)
    {
      assert [] + [e] == [e];
      ok := repository.Save(aggregate, t);
    }

    method RecordOutcome(paymentId: PaymentId, orderId: OrderId, amountCents: int, reply: GatewayReply,
        ghost t: PaymentTables)
      returns (ok: bool)
      requires Wired() && repository.Shows(t)
      modifies repository
      ensures match SavePayment(t, paymentId, [], PaymentOutcome(paymentId, orderId, amountCents, reply))
        case None => !ok && repository.Shows(t)
        case Some(after) =>
          ok && repository.Shows(after) && Records(t, after, paymentId, orderId, amountCents, reply)
    {
      OutcomeEffect(t, paymentId, orderId, amountCents, reply);
      var aggregate;
      match reply {
        case Approved(_, pspReference) =>
          aggregate := Authorize(paymentId, orderId, amountCents, pspReference);
        case Refused(code, reason) =>
          aggregate := Decline(paymentId, orderId, GetOr(code, "unknown"), GetOr(reason, "Payment declined"));
      }
      ok := SaveNew(aggregate, PaymentOutcome(paymentId, orderId, amountCents, reply), t);
    }

    /** Not ok is an exception: from the gateway call, or the ConcurrencyError of the save. */
    method Execute(orderId: OrderId, amountCents: int, paymentId: PaymentId, decision: Decision, end: CallEnd,
        ghost db: Payments)
      returns (ok: bool)
      requires Wired() && Shows(db)
      modifies gateway`replies, repository
      ensures
        var handled := AttemptAuthorize(db, orderId, amountCents, paymentId, decision, end);
        Shows(handled.0) && ok == handled.1
      ensures HasPayment(db.tables, orderId) ==> ok && Shows(db)
      ensures ok && !HasPayment(db.tables, orderId) ==>
        var reply := ReplyFor(db.gateway, orderId, amountCents, decision);
        var after := HandleAuthorize(db, orderId, amountCents, paymentId, decision).0;
        && Shows(after) && Answered(db.gateway, orderId, amountCents, decision, reply)
        && after.gateway == db.gateway[orderId := reply]
        && Records(db.tables, after.tables, paymentId, orderId, amountCents, reply)
      ensures !ok ==> repository.Shows(db.tables)
    {
      AuthorizeEffect(db, orderId, amountCents, paymentId, decision);
      OutcomeEffect(db.tables, paymentId, orderId, amountCents,
                    ReplyFor(db.gateway, orderId, amountCents, decision));
      var existing := exists id :: id in repository.projection && repository.projection[id].state.orderId == orderId;
      if existing {
        return true;
      }
      var answer := gateway.Authorize(orderId, amountCents, decision, end);
      if answer.None? {
        return false;
      }
      ok := RecordOutcome(paymentId, orderId, amountCents, answer.value, db.tables);
    }
  }

  class RefundPaymentHandler {
    const gateway: PaymentGateway
    const repository: EventStoreRepository<PaymentState, PaymentEvent>

    ghost predicate Wired() {
      repository.blank == BLANK_STATE && repository.reducer == When && repository.clash == SameOrder
    }

    ghost predicate Shows(db: RefundStore)
      reads gateway, repository
    {
      repository.Shows(db.tables) && gateway.refunds == db.refunds
    }

    constructor (gateway: PaymentGateway, repository: EventStoreRepository<PaymentState, PaymentEvent>)
      ensures this.gateway == gateway && this.repository == repository
    {
      this.gateway, this.repository := gateway, repository;
    }

    /** The guard, and the save if it lets the refund through. */
    method RecordRefund(aggregate: PaymentAggregate, ghost t: PaymentTables) returns (error: Option<PaymentError>)
      requires Wired() && repository.Shows(t) && IsPayment(aggregate)
      requires aggregate.uncommitted == [] && aggregate.Tracks(t.Stream(aggregate.id))
      requires t.Stream(aggregate.id) != [] && aggregate.state.pspReference.Some?
      modifies repository, aggregate
      ensures match HandleRefund(t, aggregate.id)
        case Ok(after) => error == None && repository.Shows(after)
        case Err(e) => error == Some(e) && repository.Shows(t)
    {
      assert t.Stream(aggregate.id) + [] == t.Stream(aggregate.id);
      var ok := Refund(aggregate, REFUND_REASON);
      if !ok {
        return None;
      }
      assert aggregate.Tracks(t.Stream(aggregate.id));
      var saved := repository.Save(aggregate, t);
      error := if saved then None else Some(Conflict);
    }

    method Execute(paymentId: PaymentId, amountCents: int, end: CallEnd, ghost db: RefundStore)
      returns (error: Option<PaymentError>)
      requires Wired() && Shows(db)
      modifies gateway`refunds, repository
      ensures
        var handled := AttemptRefund(db, paymentId, amountCents, end);
        Shows(handled.0) && error == handled.1
      ensures db.tables.Stream(paymentId) == [] ==> error == Some(NotFound) && Shows(db)
      ensures OnlyPayment(db.tables, paymentId) ==>
        var charge := db.tables.Stream(paymentId)[0];
        && error == (if end == Answers then None else Some(GatewayThrew))
        && gateway.refunds == old(gateway.refunds) +
             (if end == ThrowsUndecided then [] else [RefundRequest(charge.pspReference, amountCents)])
        && (end != Answers || |db.tables.Stream(paymentId)| == 2 ==> repository.Shows(db.tables))
    {
      NothingToRefund(db, paymentId, amountCents, end);
      if OnlyPayment(db.tables, paymentId) {
        AttemptRefunds(db, paymentId, amountCents, end);
        RefundIsRecorded(db.tables, paymentId);
      }
      var aggregate := repository.LoadAggregate(paymentId, db.tables);
      if aggregate == null {
        return Some(NotFound);
      }
      if aggregate.state.pspReference.None? {
        return Some(NoReference);
      }
      var answered := gateway.Refund(aggregate.state.pspReference.value, amountCents, end);
      if !answered {
        return Some(GatewayThrew);
      }
      error := RecordRefund(aggregate, db.tables);
    }
  }
}

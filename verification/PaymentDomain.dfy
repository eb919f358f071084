/** The payment aggregate: AUTHORIZED and perhaps REFUNDED, or DECLINED. */
module PaymentDomain {
  import opened Basics
  import opened Contracts
  import opened EventSourcing

  datatype PaymentStatus = UNINITIALIZED | AUTHORIZED | DECLINED | REFUNDED

  datatype PaymentState = PaymentState(status: PaymentStatus, orderId: OrderId, amountCents: int,
                                       pspReference: Option<nat>, declineCode: Option<string>, reason: Option<string>)

  const BLANK_STATE := PaymentState(UNINITIALIZED, 0, 0, None, None, None)

  function When(state: PaymentState, e: PaymentEvent): PaymentState
  {
    match e
    case PaymentAuthorized(_, orderId, amountCents, pspReference) =>
      state.(status := AUTHORIZED, orderId := orderId, amountCents := amountCents, pspReference := Some(pspReference))
    case PaymentDeclined(_, orderId, declineCode, reason) =>
      state.(status := DECLINED, orderId := orderId, declineCode := Some(declineCode), reason := Some(reason))
    case PaymentRefunded(_, _, _, reason) =>
      state.(status := REFUNDED, reason := OrElse(reason, state.reason))
  }

  function Replay(events: seq<PaymentEvent>): PaymentState { Fold(When, BLANK_STATE, events) }

  /** refund: None when the guard throws PaymentAlreadyFinalizedError. */
  function Refunding(id: PaymentId, state: PaymentState, reason: Option<string>): Option<PaymentEvent>
  {
    if state.status != AUTHORIZED then None else Some(PaymentRefunded(id, state.orderId, state.amountCents, reason))
  }

  /** The only streams a payment may have; all its events name the same payment and order. */
  predicate PaymentStream(id: PaymentId, events: seq<PaymentEvent>)
  {
    && 1 <= |events| <= 2
    && (events[0].PaymentAuthorized? || events[0].PaymentDeclined?) && events[0].paymentId == id
    && (|events| == 2 ==>
          && events[0].PaymentAuthorized? && events[1].PaymentRefunded?
          && events[1].paymentId == id && events[1].orderId == events[0].orderId
          && events[1].refundedCents == events[0].amountCents)
  }

  lemma ReplayOfStream(id: PaymentId, events: seq<PaymentEvent>)
    requires PaymentStream(id, events)
    ensures
      var s := Replay(events);
      && s.orderId == events[0].orderId
      && s.status == (if |events| == 2 then REFUNDED else if events[0].PaymentAuthorized? then AUTHORIZED else DECLINED)
      && s.pspReference == (if events[0].PaymentAuthorized? then Some(events[0].pspReference) else None)
      && s.amountCents == (if events[0].PaymentAuthorized? then events[0].amountCents else 0)
      && s.declineCode == (if s.status == DECLINED then Some(events[0].declineCode) else None)
      && s.reason == (if s.status == DECLINED then Some(events[0].declineReason)
                      else if s.status == REFUNDED then events[1].refundReason else None)
  {
    FoldSnoc(When, BLANK_STATE, [], events[0]);
    assert [] + [events[0]] == [events[0]];
    if |events| == 1 {
      assert events == [events[0]];
    } else {
      FoldSnoc(When, BLANK_STATE, [events[0]], events[1]);
      assert events == [events[0]] + [events[1]];
    }
  }

  /** refund extends exactly the streams that are only AUTHORIZED: at most one refund is ever recorded. */
  lemma RefundKeepsGrammar(id: PaymentId, events: seq<PaymentEvent>, reason: Option<string>)
    requires PaymentStream(id, events)
    ensures Refunding(id, Replay(events), reason).Some? <==> |events| == 1 && events[0].PaymentAuthorized?
    ensures Refunding(id, Replay(events), reason).Some? ==>
        PaymentStream(id, events + [Refunding(id, Replay(events), reason).value])
  {
    ReplayOfStream(id, events);
  }

  type PaymentAggregate = AggregateRoot<PaymentState, PaymentEvent>

  ghost predicate IsPayment(a: PaymentAggregate) { a.reducer == When && a.blank == BLANK_STATE }

  method Authorize(paymentId: PaymentId, orderId: OrderId, amountCents: int, pspReference: nat)
    returns (a: PaymentAggregate)
    ensures fresh(a) && IsPayment(a) && a.id == paymentId && a.version == 1
    ensures a.uncommitted == [PaymentAuthorized(paymentId, orderId, amountCents, pspReference)]
    ensures PaymentStream(paymentId, a.uncommitted) && a.Tracks([]) && a.state == Replay(a.uncommitted)
  {
    a := new AggregateRoot(paymentId, BLANK_STATE, When);
    a.Apply(PaymentAuthorized(paymentId, orderId, amountCents, pspReference));
    assert [] + a.uncommitted == a.uncommitted;
  }

  method Decline(paymentId: PaymentId, orderId: OrderId, declineCode: string, reason: string)
    returns (a: PaymentAggregate)
    ensures fresh(a) && IsPayment(a) && a.id == paymentId && a.version == 1
    ensures a.uncommitted == [PaymentDeclined(paymentId, orderId, declineCode, reason)]
    ensures PaymentStream(paymentId, a.uncommitted) && a.Tracks([]) && a.state == Replay(a.uncommitted)
  {
    a := new AggregateRoot(paymentId, BLANK_STATE, When);
    a.Apply(PaymentDeclined(paymentId, orderId, declineCode, reason));
    assert [] + a.uncommitted == a.uncommitted;
  }

  method Refund(a: PaymentAggregate, reason: Option<string>) returns (ok: bool)
    requires IsPayment(a)
    modifies a
    ensures ok <==> old(a.state.status) == AUTHORIZED
    ensures !ok ==> unchanged(a)
    ensures ok ==>
      && a.uncommitted ==
           old(a.uncommitted) + [PaymentRefunded(a.id, old(a.state.orderId), old(a.state.amountCents), reason)]
      && a.state == old(a.state).(status := REFUNDED, reason := OrElse(reason, old(a.state.reason)))
      && a.version == old(a.version) + 1
      && forall stored :: old(a.Tracks(stored)) ==> a.Tracks(stored)
  {
    if a.state.status != AUTHORIZED {
      return false;
    }
    a.Apply(PaymentRefunded(a.id, a.state.orderId, a.state.amountCents, reason));
    ok := true;
  }
}

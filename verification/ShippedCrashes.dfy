/** The crash windows of the shipped saga, in terms of the commands on saga.commands. */
module ShippedCrashes {
  import opened Basics
  import opened Contracts
  import opened SagaToolkit
  import opened SagaCrashes
  import opened OrderFulfillment

  type ShippedWorld = World<Context, Command>

  type ShippedAction = Action<EventType, Context, Contracts.Event>

  /** The command that announces a terminal snapshot. */
  function Announcement(sn: SagaSnapshot): Command
  {
    if sn.status == COMPLETED then ConfirmOrder(sn.context.orderId, sn.context.paymentId)
    else CancelOrder(sn.context.orderId, FailureReason(sn.history))
  }

  function RunShipped(actions: seq<ShippedAction>): ShippedWorld {
    RunAll(ORDER_FULFILLMENT_SAGA, Announcement, actions)
  }

  predicate Ends(c: Command) { c.ConfirmOrder? || c.CancelOrder? }

  /** How many ConfirmOrder and CancelOrder commands are on the topic. */
  function Endings(log: seq<Sent<Context, Command>>): nat
  {
    if log == [] then 0 else Endings(log[..|log| - 1]) + (if Ends(log[|log| - 1].command) then 1 else 0)
  }

  /** No step command and no compensation of the shipped saga is a ConfirmOrder or a CancelOrder. */
  lemma OnlyAnnouncementsEnd(s: Sent<Context, Command>)
    requires Genuine(ORDER_FULFILLMENT_SAGA, Announcement, s)
    ensures Ends(s.command) <==> s.Finish?
    ensures s.Finish? ==> TerminalCommand(s.snapshot) == Some(s.command)
  {
    if s.Undo? {
      var i :| 0 <= i < 2 && ORDER_FULFILLMENT_SAGA.steps[i].compensation.Some?
               && s.command == ORDER_FULFILLMENT_SAGA.steps[i].compensation.value(s.context);
      assert i == 1;
    }
  }

  lemma {:induction false} EndingsAreFinishes(log: seq<Sent<Context, Command>>)
    requires AllGenuine(ORDER_FULFILLMENT_SAGA, Announcement, log)
    ensures Endings(log) == Finishes(log)
    decreases |log|
  {
    if log != [] {
      EndingsAreFinishes(log[..|log| - 1]);
      OnlyAnnouncementsEnd(log[|log| - 1]);
    }
  }

  predicate OnTopic(w: ShippedWorld, c: Command) { exists j :: 0 <= j < |w.log| && w.log[j].command == c }

  predicate ReserveSent(w: ShippedWorld) { exists j :: 0 <= j < |w.log| && w.log[j].command.ReserveStock? }

  predicate AuthorizeSent(w: ShippedWorld) { exists j :: 0 <= j < |w.log| && w.log[j].command.AuthorizePayment? }

  /** The shipped saga with crashes at any await and serial redelivery: a saga row means ReserveStock was published,
      a row at the payment step that AuthorizePayment was; ConfirmOrder and CancelOrder together are published at
      most once, and only the one the persisted row calls for; and a finished, idle saga has published it if and
      only if no crash fell between its last save and that publish. */
  lemma ShippedCrashWindows(actions: seq<ShippedAction>)
    ensures
      var w := RunShipped(actions);
      && (w.row.Some? ==> ReserveSent(w))
      && (w.row.Some? && w.row.value.currentStepIndex == 1 ==> AuthorizeSent(w))
      && Endings(w.log) <= 1
      && (forall c :: OnTopic(w, c) && Ends(c) ==> w.row.Some? && TerminalCommand(w.row.value) == Some(c))
      && (w.row.Some? && Terminal(w.row.value.status) && w.pc.Idle? ==> (Endings(w.log) == 1 <==> !w.lost))
  {
    var w := RunShipped(actions);
    CrashWindows(ORDER_FULFILLMENT_SAGA, Announcement, actions);
    EndingsAreFinishes(w.log);
    if w.row.Some? {
      assert Commanded(ORDER_FULFILLMENT_SAGA, w.log, 0);
      if w.row.value.currentStepIndex == 1 { assert Commanded(ORDER_FULFILLMENT_SAGA, w.log, 1); }
    }
    forall c | OnTopic(w, c) && Ends(c) ensures w.row.Some? && TerminalCommand(w.row.value) == Some(c) {
      var j :| 0 <= j < |w.log| && w.log[j].command == c;
      OnlyAnnouncementsEnd(w.log[j]);
    }
  }

  lemma OneMore(actions: seq<ShippedAction>, a: ShippedAction)
    ensures RunShipped(actions + [a]) == Move(ORDER_FULFILLMENT_SAGA, Announcement, RunShipped(actions), a)
  {
    assert (actions + [a])[..|actions|] == actions;
  }

  /** A saga started and saved. */
  lemma Started(context: Context)
    ensures
      var begun := StartSaga(ORDER_FULFILLMENT_SAGA, context.orderId, context);
      RunShipped([ReceiveCreated(context.orderId, context), PublishNext, SaveRow])
        == World(Some(begun.snapshot), [Forward(0, context, begun.published[0])], Idle, false)
  {
    var a0: ShippedAction := ReceiveCreated(context.orderId, context);
    var none: seq<ShippedAction> := [];
    assert none + [a0] == [a0] && [a0] + [PublishNext] == [a0, PublishNext];
    assert [a0, PublishNext] + [SaveRow] == [a0, PublishNext, SaveRow];
    OneMore(none, a0);
    OneMore([a0], PublishNext);
    OneMore([a0, PublishNext], SaveRow);
  }

  /** A saga at its first step whose reservation failed, with a crash right after the save. */
  lemma FailedAndCrashed(actions: seq<ShippedAction>, failed: Contracts.Event)
    requires TypeOf(failed) == INVENTORY_RESERVATION_FAILED
    requires
      var w := RunShipped(actions);
      && w.pc.Idle? && !w.lost && w.row.Some?
      && w.row.value.currentStepIndex == 0 && w.row.value.status == IN_PROGRESS
    ensures
      var w := RunShipped(actions);
      var after := RunShipped(actions + [ReceiveOutcome(AsSagaEvent(failed))] + [SaveRow] + [Crash]);
      after.row.Some? && after.row.value.status == COMPENSATED && after.pc.Idle? && after.lost && after.log == w.log
  {
    var a: ShippedAction := ReceiveOutcome(AsSagaEvent(failed));
    OneMore(actions, a);
    OneMore(actions + [a], SaveRow);
    OneMore(actions + [a] + [SaveRow], Crash);
    ShippedStep(RunShipped(actions).row.value, failed);
  }

  /** The window is real: a run whose saga ends COMPENSATED and whose CancelOrder is lost to a crash. */
  lemma CancelCanBeLost(context: Context, failed: Contracts.Event)
    requires TypeOf(failed) == INVENTORY_RESERVATION_FAILED
    ensures
      var actions := [ReceiveCreated(context.orderId, context), PublishNext, SaveRow]
                     + [ReceiveOutcome(AsSagaEvent(failed))] + [SaveRow] + [Crash];
      var w := RunShipped(actions);
      && w.row.Some? && w.row.value.status == COMPENSATED && w.pc.Idle? && w.lost && Endings(w.log) == 0
  {
    var start: seq<ShippedAction> := [ReceiveCreated(context.orderId, context), PublishNext, SaveRow];
    Started(context);
    FailedAndCrashed(start, failed);
    ShippedCrashWindows(start + [ReceiveOutcome(AsSagaEvent(failed))] + [SaveRow] + [Crash]);
  }
}

/** One saga handled serially, with a crash possible at every await: publish before save, save before the
    terminal publish. */
module SagaCrashes {
  import opened Basics
  import opened SagaToolkit

  /** A command on the topic, with what it was built from. */
  datatype Sent<+C, +K> =
    | Forward(step: nat, context: C, command: K)
    | Undo(context: C, command: K)
    | Finish(snapshot: Snapshot<C>, command: K)

  /** Where the handler is: publishing what the engine asked for, or about to publish the terminal command. */
  datatype Pc<+C, +K> = Idle | Sending(toSend: seq<Sent<C, K>>, next: Snapshot<C>) | Finishing(snapshot: Snapshot<C>)

  /** `lost` remembers a crash that hit the window between the save of a terminal snapshot and its publish. */
  datatype World<+C, +K> = World(row: Option<Snapshot<C>>, log: seq<Sent<C, K>>, pc: Pc<C, K>, lost: bool)

  datatype Action<+T, +C, +P> =
    | ReceiveCreated(sagaId: nat, context: C)
    | ReceiveOutcome(event: SagaEvent<T, P>)
    | PublishNext
    | SaveRow
    | PublishTerminal
    | Crash

  predicate Over(status: SagaStatus) { status == COMPLETED || status == COMPENSATED }

  /** The engine's publishes for an event: the next step's command, or the compensations. */
  function ToSend<T(==), C, P, K>(def: SagaDefinition<T, C, P, K>, snapshot: Snapshot<C>, e: SagaEvent<T, P>)
    : seq<Sent<C, K>>
    requires snapshot.currentStepIndex < |def.steps|
  {
    var k, merged := snapshot.currentStepIndex, def.merge(snapshot.context, e.payload);
    var published := OnEvent(def, snapshot, e).published;
    seq(|published|, i requires 0 <= i < |published| =>
      if e.kind == def.steps[k].successEvent then Forward(k + 1, merged, published[i]) else Undo(merged, published[i]))
  }

  /** `finish` builds the command that announces a terminal snapshot. */
  function Move<T(==), C, P, K>(def: SagaDefinition<T, C, P, K>, finish: Snapshot<C> -> K, w: World<C, K>,
      a: Action<T, C, P>)
    : World<C, K>
    requires def.steps != [] && (w.row.Some? ==> w.row.value.currentStepIndex < |def.steps|)
  {
    match a
    case ReceiveCreated(sagaId, context) =>
      if w.pc.Idle? && w.row.None? then
        var started := StartSaga(def, sagaId, context);
        w.(pc := Sending([Forward(0, context, started.published[0])], started.snapshot))
      else w
    case ReceiveOutcome(e) =>
      if w.pc.Idle? && w.row.Some? && !Over(w.row.value.status) then
        w.(pc := Sending(ToSend(def, w.row.value, e), OnEvent(def, w.row.value, e).snapshot))
      else w
    case PublishNext =>
      if w.pc.Sending? && w.pc.toSend != [] then
        w.(log := w.log + [w.pc.toSend[0]], pc := w.pc.(toSend := w.pc.toSend[1..]))
      else w
    case SaveRow =>
      if w.pc.Sending? && w.pc.toSend == [] then
        w.(row := Some(w.pc.next), pc := if Over(w.pc.next.status) then Finishing(w.pc.next) else Idle)
      else w
    case PublishTerminal =>
      if w.pc.Finishing? then w.(log := w.log + [Finish(w.pc.snapshot, finish(w.pc.snapshot))], pc := Idle) else w
    case Crash => w.(pc := Idle, lost := w.lost || w.pc.Finishing?)
  }

  /** The command is the one its label says: step i's command built from that context, some step's compensation,
      or the announcement of that snapshot. */
  predicate Genuine<T, C, P, K(==)>(def: SagaDefinition<T, C, P, K>, finish: Snapshot<C> -> K, s: Sent<C, K>)
  {
    match s
    case Forward(i, context, command) => i < |def.steps| && command == def.steps[i].command(context)
    case Undo(context, command) =>
      exists i ::
        && 0 <= i < |def.steps|
        && def.steps[i].compensation.Some?
        && command == def.steps[i].compensation.value(context)
    case Finish(snapshot, command) => Over(snapshot.status) && command == finish(snapshot)
  }

  /** Forward command i is in the list. */
  predicate Includes<C, K>(sent: seq<Sent<C, K>>, i: nat)
  {
    exists j :: 0 <= j < |sent| && sent[j].Forward? && sent[j].step == i
  }

  /** How many terminal commands have gone out. */
  function Finishes<C, K>(log: seq<Sent<C, K>>): nat
  {
    if log == [] then 0 else Finishes(log[..|log| - 1]) + (if log[|log| - 1].Finish? then 1 else 0)
  }

  predicate AllGenuine<T, C, P, K(==)>(def: SagaDefinition<T, C, P, K>, finish: Snapshot<C> -> K, sent: seq<Sent<C, K>>)
  {
    forall j :: 0 <= j < |sent| ==> Genuine(def, finish, sent[j])
  }

  ghost predicate Safe<T, C, P, K>(def: SagaDefinition<T, C, P, K>, finish: Snapshot<C> -> K, w: World<C, K>)
  {
    && def.steps != [] && AllGenuine(def, finish, w.log)
    && (w.row.Some? ==>
          && w.row.value.currentStepIndex < |def.steps|
          && (forall i: nat :: i <= w.row.value.currentStepIndex ==> Includes(w.log, i)))
    && (w.pc.Sending? ==>
          && AllGenuine(def, finish, w.pc.toSend)
          && w.pc.next.currentStepIndex < |def.steps|
          && (w.row.Some? ==> !Over(w.row.value.status))
          && (forall j :: 0 <= j < |w.pc.toSend| ==> !w.pc.toSend[j].Finish?)
          && (forall i: nat :: i <= w.pc.next.currentStepIndex ==> Includes(w.log, i) || Includes(w.pc.toSend, i)))
    && (w.pc.Finishing? ==> w.row == Some(w.pc.snapshot) && Over(w.pc.snapshot.status) && !w.lost)
    && (if w.row.Some? && Over(w.row.value.status) then Finishes(w.log) == (if w.pc.Finishing? || w.lost then 0 else 1)
        else Finishes(w.log) == 0 && !w.lost)
    && (forall j :: 0 <= j < |w.log| && w.log[j].Finish? ==> w.row == Some(w.log[j].snapshot))
  }

  function RunAll<T(==), C, P, K>(def: SagaDefinition<T, C, P, K>, finish: Snapshot<C> -> K,
      actions: seq<Action<T, C, P>>)
    : (w: World<C, K>)
    requires def.steps != []
    ensures w.row.Some? ==> w.row.value.currentStepIndex < |def.steps|
    ensures w.pc.Sending? ==> w.pc.next.currentStepIndex < |def.steps|
    decreases |actions|
  {
    if actions == [] then World(None, [], Idle, false)
    else Move(def, finish, RunAll(def, finish, actions[..|actions| - 1]), actions[|actions| - 1])
  }

  lemma IncludesGrows<C, K>(log: seq<Sent<C, K>>, s: Sent<C, K>, i: nat)
    requires Includes(log, i) || (s.Forward? && s.step == i)
    ensures Includes(log + [s], i)
  {
    var all := log + [s];
    if Includes(log, i) {
      var j :| 0 <= j < |log| && log[j].Forward? && log[j].step == i;
      assert all[j] == log[j];
    } else {
      assert all[|log|] == s;
    }
  }

  lemma StillIncluded<C, K>(log: seq<Sent<C, K>>, toSend: seq<Sent<C, K>>, i: nat)
    requires toSend != [] && (Includes(log, i) || Includes(toSend, i))
    ensures Includes(log + [toSend[0]], i) || Includes(toSend[1..], i)
  {
    if Includes(log, i) || (toSend[0].Forward? && toSend[0].step == i) {
      IncludesGrows(log, toSend[0], i);
    } else {
      var j :| 0 <= j < |toSend| && toSend[j].Forward? && toSend[j].step == i;
      assert toSend[1..][j - 1] == toSend[j];
    }
  }

  /** What the engine publishes for an event is genuine: forward commands and compensations alike. */
  lemma ToSendIsGenuine<T, C, P, K>(def: SagaDefinition<T, C, P, K>, finish: Snapshot<C> -> K, snapshot: Snapshot<C>,
      e: SagaEvent<T, P>)
    requires snapshot.currentStepIndex < |def.steps|
    ensures AllGenuine(def, finish, ToSend(def, snapshot, e))
  {
    var k, merged := snapshot.currentStepIndex, def.merge(snapshot.context, e.payload);
    var sent := ToSend(def, snapshot, e);
    CompensationOrder(def.steps[..k], merged);
    forall j | 0 <= j < |sent| ensures Genuine(def, finish, sent[j]) {
      if sent[j].Undo? {
        var i := UndoIndices(def.steps[..k])[j];
        assert def.steps[i] == def.steps[..k][i];
      }
    }
  }

  lemma ReceiveKeepsSafe<T, C, P, K>(def: SagaDefinition<T, C, P, K>, finish: Snapshot<C> -> K, w: World<C, K>,
      e: SagaEvent<T, P>)
    requires Safe(def, finish, w)
    ensures Safe(def, finish, Move(def, finish, w, ReceiveOutcome(e)))
  {
    if w.pc.Idle? && w.row.Some? && !Over(w.row.value.status) {
      var after := Move(def, finish, w, ReceiveOutcome(e));
      var k := w.row.value.currentStepIndex;
      ToSendIsGenuine(def, finish, w.row.value, e);
      if after.pc.next.currentStepIndex == k + 1 {
        assert after.pc.toSend[0].Forward? && after.pc.toSend[0].step == k + 1;
      }
    }
  }

  lemma PublishKeepsSafe<T, C, P, K>(def: SagaDefinition<T, C, P, K>, finish: Snapshot<C> -> K, w: World<C, K>)
    requires Safe(def, finish, w) && w.pc.Sending? && w.pc.toSend != []
    ensures Safe(def, finish, Move(def, finish, w, PublishNext))
  {
    var s, after := w.pc.toSend[0], Move(def, finish, w, PublishNext);
    assert (w.log + [s])[..|w.log|] == w.log;
    forall i: nat | Includes(w.log, i) ensures Includes(after.log, i) { IncludesGrows(w.log, s, i); }
    forall i: nat | i <= w.pc.next.currentStepIndex ensures Includes(after.log, i) || Includes(after.pc.toSend, i) {
      StillIncluded(w.log, w.pc.toSend, i);
    }
  }

  lemma TerminalKeepsSafe<T, C, P, K>(def: SagaDefinition<T, C, P, K>, finish: Snapshot<C> -> K, w: World<C, K>)
    requires Safe(def, finish, w) && w.pc.Finishing?
    ensures Safe(def, finish, Move(def, finish, w, PublishTerminal))
  {
    var s, after := Finish(w.pc.snapshot, finish(w.pc.snapshot)), Move(def, finish, w, PublishTerminal);
    assert (w.log + [s])[..|w.log|] == w.log;
    forall i: nat | Includes(w.log, i) ensures Includes(after.log, i) { IncludesGrows(w.log, s, i); }
  }

  lemma MoveKeepsSafe<T, C, P, K>(def: SagaDefinition<T, C, P, K>, finish: Snapshot<C> -> K, w: World<C, K>,
      a: Action<T, C, P>)
    requires Safe(def, finish, w)
    ensures Safe(def, finish, Move(def, finish, w, a))
  {
    match a
    case ReceiveCreated(sagaId, context) =>
      if w.pc.Idle? && w.row.None? { assert Move(def, finish, w, a).pc.toSend[0].step == 0; }
    case ReceiveOutcome(e) => ReceiveKeepsSafe(def, finish, w, e);
    case PublishNext => if w.pc.Sending? && w.pc.toSend != [] { PublishKeepsSafe(def, finish, w); }
    case SaveRow =>
    case PublishTerminal => if w.pc.Finishing? { TerminalKeepsSafe(def, finish, w); }
    case Crash =>
  }

  /** Step i's command, built from some context, is on the topic. */
  predicate Commanded<T, C, P, K(==)>(def: SagaDefinition<T, C, P, K>, log: seq<Sent<C, K>>, i: nat)
    requires i < |def.steps|
  {
    exists j :: 0 <= j < |log| && log[j].Forward? && log[j].command == def.steps[i].command(log[j].context)
  }

  /** Crash windows, for every definition and every run of serial handling with crashes at any await. Every command
      on the topic is some step's command, some step's compensation or the announcement of a terminal snapshot. A
      persisted step index k means the command of every step 0..k was published at least once. Terminal commands
      are published at most once, and then for the persisted snapshot; and once the saga is over and idle one was
      published if and only if no crash fell between the terminal save and the terminal publish. */
  lemma {:induction false} CrashWindows<T, C, P, K>(def: SagaDefinition<T, C, P, K>, finish: Snapshot<C> -> K,
      actions: seq<Action<T, C, P>>)
    requires def.steps != []
    ensures
      var w: World<C, K> := RunAll(def, finish, actions);
      && Safe(def, finish, w) && AllGenuine(def, finish, w.log)
      && (w.row.Some? ==> forall i: nat :: i <= w.row.value.currentStepIndex ==> Commanded(def, w.log, i))
      && Finishes(w.log) <= 1
      && (forall j :: 0 <= j < |w.log| && w.log[j].Finish? ==> w.row.Some? && w.log[j].command == finish(w.row.value))
      && (w.row.Some? && Over(w.row.value.status) && w.pc.Idle? ==> (Finishes(w.log) == 1 <==> !w.lost))
    decreases |actions|
  {
    if actions != [] {
      CrashWindows<T, C, P, K>(def, finish, actions[..|actions| - 1]);
      MoveKeepsSafe(def, finish, RunAll(def, finish, actions[..|actions| - 1]), actions[|actions| - 1]);
    }
    var w: World<C, K> := RunAll(def, finish, actions);
    if w.row.Some? {
      forall i: nat | i <= w.row.value.currentStepIndex ensures Commanded(def, w.log, i) {
        assert Includes(w.log, i);
        var j :| 0 <= j < |w.log| && w.log[j].Forward? && w.log[j].step == i;
        assert Genuine(def, finish, w.log[j]);
      }
    }
  }

  ghost predicate NoCrash<T, C, P>(actions: seq<Action<T, C, P>>)
  {
    forall i :: 0 <= i < |actions| ==> actions[i] != Crash
  }

  /** Without crashes nothing is lost, so a saga that is over and idle announced its end exactly once. */
  lemma {:induction false} CrashFreeAnnouncesOnce<T, C, P, K>(def: SagaDefinition<T, C, P, K>, finish: Snapshot<C> -> K,
      actions: seq<Action<T, C, P>>)
    requires def.steps != [] && NoCrash(actions)
    ensures
      var w: World<C, K> := RunAll(def, finish, actions);
      !w.lost && (w.row.Some? && Over(w.row.value.status) && w.pc.Idle? ==> Finishes(w.log) == 1)
    decreases |actions|
  {
    CrashWindows<T, C, P, K>(def, finish, actions);
    if actions != [] {
      CrashFreeAnnouncesOnce<T, C, P, K>(def, finish, actions[..|actions| - 1]);
    }
  }

  /** A terminal command lost to a crash stays lost: the guard turns every redelivery away. */
  lemma LostForGood<T, C, P, K>(def: SagaDefinition<T, C, P, K>, finish: Snapshot<C> -> K, w: World<C, K>,
      a: Action<T, C, P>)
    requires Safe(def, finish, w) && w.lost && w.pc.Idle?
    ensures Move(def, finish, w, a) == w
  {
  }
}

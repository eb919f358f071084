/** The generic saga engine: forward on success events, compensation commands in reverse order on a failure. */
module SagaToolkit {
  import opened Basics

  datatype SagaStatus = STARTED | IN_PROGRESS | COMPLETED | COMPENSATING | COMPENSATED | FAILED

  /** T: event types, C: contexts, K: command messages. */
  datatype SagaStep<!T, !C, !K> =
    SagaStep(name: string, command: C -> K, successEvent: T, failureEvent: T, compensation: Option<C -> K>)

  /** `merge` spreads an event payload of type P over a context. */
  datatype SagaDefinition<!T, !C, !P, !K> =
    SagaDefinition(name: string, steps: seq<SagaStep<T, C, K>>, merge: (C, P) -> C)

  datatype Mark = Started | Succeeded | Failed

  datatype HistoryEntry = HistoryEntry(step: string, mark: Mark)

  datatype Snapshot<+C> =
    Snapshot(sagaId: nat, definitionName: string, currentStepIndex: nat, status: SagaStatus, context: C,
        history: seq<HistoryEntry>)

  datatype SagaEvent<+T, +P> = SagaEvent(kind: T, payload: P)

  /** The new snapshot, and the commands published on the way, in order. */
  datatype Outcome<+C, +K> = Outcome(snapshot: Snapshot<C>, published: seq<K>)

  function StartSaga<T, C, P, K>(def: SagaDefinition<T, C, P, K>, sagaId: nat, context: C): Outcome<C, K>
    requires def.steps != []
  {
    Outcome(Snapshot(sagaId, def.name, 0, IN_PROGRESS, context, [HistoryEntry(def.steps[0].name, Started)]),
            [def.steps[0].command(context)])
  }

  function Advance<T, C, P, K>(def: SagaDefinition<T, C, P, K>, snapshot: Snapshot<C>, context: C): Outcome<C, K>
    requires snapshot.currentStepIndex < |def.steps|
  {
    var nextIndex := snapshot.currentStepIndex + 1;
    var history := snapshot.history + [HistoryEntry(def.steps[snapshot.currentStepIndex].name, Succeeded)];
    if nextIndex >= |def.steps| then
      Outcome(snapshot.(context := context, status := COMPLETED, history := history), [])
    else
      Outcome(snapshot.(context := context, currentStepIndex := nextIndex, status := IN_PROGRESS, history := history),
              [def.steps[nextIndex].command(context)])
  }

  /** The compensation commands of a list of steps, last step first. */
  function Compensations<T, C, K>(steps: seq<SagaStep<T, C, K>>, context: C): seq<K>
  {
    if steps == [] then []
    else
      var last := steps[|steps| - 1];
      (if last.compensation.Some? then [last.compensation.value(context)] else []) +
      Compensations(steps[..|steps| - 1], context)
  }

  function BeginCompensation<T, C, P, K>(def: SagaDefinition<T, C, P, K>, snapshot: Snapshot<C>, context: C):
    Outcome<C, K>
    requires snapshot.currentStepIndex < |def.steps|
  {
    var history := snapshot.history + [HistoryEntry(def.steps[snapshot.currentStepIndex].name, Failed)];
    var commands := Compensations(def.steps[..snapshot.currentStepIndex], context);
    var status := if commands != [] then COMPENSATING else COMPENSATED;
    Outcome(snapshot.(context := context, status := status, history := history), commands)
  }

  function OnEvent<T(==), C, P, K>(def: SagaDefinition<T, C, P, K>, snapshot: Snapshot<C>, e: SagaEvent<T, P>):
    Outcome<C, K>
    requires snapshot.currentStepIndex < |def.steps|
  {
    var step := def.steps[snapshot.currentStepIndex];
    var merged := def.merge(snapshot.context, e.payload);
    if e.kind == step.successEvent then Advance(def, snapshot, merged)
    else if e.kind == step.failureEvent then BeginCompensation(def, snapshot, merged)
    else Outcome(snapshot, [])
  }

  /* ---- The engine as it runs, publishing command by command ---- */

  function Compensable<T, C, K>(steps: seq<SagaStep<T, C, K>>): seq<SagaStep<T, C, K>>
  {
    if steps == [] then []
    else
      var rest := Compensable(steps[..|steps| - 1]);
      if steps[|steps| - 1].compensation.Some? then rest + [steps[|steps| - 1]] else rest
  }

  function Reversed<A>(s: seq<A>): seq<A>
  {
    if s == [] then [] else [s[|s| - 1]] + Reversed(s[..|s| - 1])
  }

  /** Filtering the compensable steps and reversing them lists their commands last step first. */
  lemma {:induction false} FilterThenReverse<T, C, K>(steps: seq<SagaStep<T, C, K>>, context: C)
    ensures
      var list, commands := Reversed(Compensable(steps)), Compensations(steps, context);
      && |list| == |commands|
      && (forall i :: 0 <= i < |list| ==>
          list[i].compensation.Some? && list[i].compensation.value(context) == commands[i])
    decreases |steps|
  {
    if steps != [] {
      var n := |steps| - 1;
      FilterThenReverse(steps[..n], context);
      if steps[n].compensation.Some? {
        var rest := Compensable(steps[..n]);
        assert (rest + [steps[n]])[..|rest|] == rest;
      }
    }
  }

  class CompensationRegistry<T(==), C, P, K> {
    const definition: SagaDefinition<T, C, P, K>
    /** Everything handed to the publish callback so far. */
    var published: seq<K>

    constructor (definition: SagaDefinition<T, C, P, K>)
      ensures this.definition == definition && published == []
    {
      this.definition, published := definition, [];
    }

    method Publish(command: K)
      modifies this
      ensures published == old(published) + [command]
    {
      published := published + [command];
    }

    method Start(sagaId: nat, context: C) returns (snapshot: Snapshot<C>)
      requires definition.steps != []
      modifies this
      ensures snapshot == StartSaga(definition, sagaId, context).snapshot
      ensures published == old(published) + StartSaga(definition, sagaId, context).published
    {
      var firstStep := definition.steps[0];
      Publish(firstStep.command(context));
      snapshot := Snapshot(sagaId, definition.name, 0, IN_PROGRESS, context, [HistoryEntry(firstStep.name, Started)]);
    }

    method OnEventReceived(snapshot: Snapshot<C>, e: SagaEvent<T, P>) returns (updated: Snapshot<C>)
      requires snapshot.currentStepIndex < |definition.steps|
      modifies this
      ensures updated == OnEvent(definition, snapshot, e).snapshot
      ensures published == old(published) + OnEvent(definition, snapshot, e).published
    {
      var step := definition.steps[snapshot.currentStepIndex];
      var merged := definition.merge(snapshot.context, e.payload);
      if e.kind == step.successEvent {
        updated := AdvanceSaga(snapshot, merged);
      } else if e.kind == step.failureEvent {
        updated := Compensate(snapshot, merged);
      } else {
        updated := snapshot;
      }
    }

    method AdvanceSaga(snapshot: Snapshot<C>, context: C) returns (updated: Snapshot<C>)
      requires snapshot.currentStepIndex < |definition.steps|
      modifies this
      ensures updated == Advance(definition, snapshot, context).snapshot
      ensures published == old(published) + Advance(definition, snapshot, context).published
    {
      var nextIndex := snapshot.currentStepIndex + 1;
      var history := snapshot.history + [HistoryEntry(definition.steps[snapshot.currentStepIndex].name, Succeeded)];
      if nextIndex >= |definition.steps| {
        return snapshot.(context := context, status := COMPLETED, history := history);
      }
      Publish(definition.steps[nextIndex].command(context));
      updated :=
          snapshot.(context := context, currentStepIndex := nextIndex, status := IN_PROGRESS, history := history);
    }

    method PublishAll(steps: seq<SagaStep<T, C, K>>, context: C, ghost commands: seq<K>)
      requires |steps| == |commands|
      requires forall i :: 0 <= i < |steps| ==>
          steps[i].compensation.Some? && steps[i].compensation.value(context) == commands[i]
      modifies this
      ensures published == old(published) + commands
    {
      for i := 0 to |steps|
        invariant published == old(published) + commands[..i]
      {
        Publish(steps[i].compensation.value(context));
        assert commands[..i + 1] == commands[..i] + [commands[i]];
      }
      assert commands[..|steps|] == commands;
    }

    method Compensate(snapshot: Snapshot<C>, context: C) returns (updated: Snapshot<C>)
      requires snapshot.currentStepIndex < |definition.steps|
      modifies this
      ensures updated == BeginCompensation(definition, snapshot, context).snapshot
      ensures published == old(published) + BeginCompensation(definition, snapshot, context).published
    {
      var history := snapshot.history + [HistoryEntry(definition.steps[snapshot.currentStepIndex].name, Failed)];
      var stepsToCompensate := Reversed(Compensable(definition.steps[..snapshot.currentStepIndex]));
      ghost var commands := Compensations(definition.steps[..snapshot.currentStepIndex], context);
      FilterThenReverse(definition.steps[..snapshot.currentStepIndex], context);
      PublishAll(stepsToCompensate, context, commands);
      var status := if |stepsToCompensate| > 0 then COMPENSATING else COMPENSATED;
      updated := snapshot.(context := context, status := status, history := history);
    }
  }

  /** Which steps are compensated and in what order. */
  function UndoIndices<T, C, K>(steps: seq<SagaStep<T, C, K>>): seq<nat>
  {
    if steps == [] then []
    else (if steps[|steps| - 1].compensation.Some? then [|steps| - 1] else []) + UndoIndices(steps[..|steps| - 1])
  }

  /** Exactly the steps with a compensation... */
  lemma {:induction false} UndoIndicesExact<T, C, K>(steps: seq<SagaStep<T, C, K>>, i: nat)
    ensures i in UndoIndices(steps) <==> i < |steps| && steps[i].compensation.Some?
    decreases |steps|
  {
    if steps != [] {
      UndoIndicesExact(steps[..|steps| - 1], i);
    }
  }

  /** ...the latest first. */
  lemma {:induction false} UndoIndicesDescend<T, C, K>(steps: seq<SagaStep<T, C, K>>)
    ensures forall a :: 0 <= a < |UndoIndices(steps)| ==> UndoIndices(steps)[a] < |steps|
    ensures forall a, b :: 0 <= a < b < |UndoIndices(steps)| ==> UndoIndices(steps)[a] > UndoIndices(steps)[b]
    decreases |steps|
  {
    if steps != [] {
      UndoIndicesDescend(steps[..|steps| - 1]);
    }
  }

  lemma {:induction false} AsManyCompensations<T, C, K>(steps: seq<SagaStep<T, C, K>>, context: C)
    ensures |Compensations(steps, context)| == |UndoIndices(steps)|
    decreases |steps|
  {
    if steps != [] {
      AsManyCompensations(steps[..|steps| - 1], context);
    }
  }

  /** The a-th command published on a failure is the compensation of the a-th of those steps. */
  lemma {:induction false} CompensationAt<T, C, K>(steps: seq<SagaStep<T, C, K>>, context: C, a: nat)
    requires a < |UndoIndices(steps)| == |Compensations(steps, context)|
    ensures
      var i := UndoIndices(steps)[a];
      && i < |steps| && steps[i].compensation.Some?
      && Compensations(steps, context)[a] == steps[i].compensation.value(context)
    decreases |steps|
  {
    var n := |steps| - 1;
    var before := if steps[n].compensation.Some? then 1 else 0;
    AsManyCompensations(steps[..n], context);
    if before <= a {
      CompensationAt(steps[..n], context, a - before);
      assert UndoIndices(steps)[a] == UndoIndices(steps[..n])[a - before];
      assert Compensations(steps, context)[a] == Compensations(steps[..n], context)[a - before];
    }
  }

  /** The commands published on a failure are those steps' compensations, in that order. */
  lemma {:induction false} CompensationOrder<T, C, K>(steps: seq<SagaStep<T, C, K>>, context: C)
    ensures
      var undo := UndoIndices(steps);
      && |Compensations(steps, context)| == |undo|
      && (forall a :: 0 <= a < |undo| ==>
            && undo[a] < |steps| && steps[undo[a]].compensation.Some?
            && Compensations(steps, context)[a] == steps[undo[a]].compensation.value(context))
  {
    hide UndoIndices, Compensations;
    AsManyCompensations(steps, context);
    forall a: nat | a < |UndoIndices(steps)|
      ensures
        && UndoIndices(steps)[a] < |steps| && steps[UndoIndices(steps)[a]].compensation.Some?
        && Compensations(steps, context)[a] == steps[UndoIndices(steps)[a]].compensation.value(context)
    {
      CompensationAt(steps, context, a);
    }
  }

  /* ---- Whole runs ---- */

  /** The engine fed one event after another until it is no longer in progress. */
  function Run<T(==), C, P, K>(def: SagaDefinition<T, C, P, K>, sagaId: nat, context: C,
      events: seq<SagaEvent<T, P>>): (r: Outcome<C, K>)
    requires def.steps != []
    ensures r.snapshot.currentStepIndex < |def.steps|
    decreases |events|
  {
    if events == [] then StartSaga(def, sagaId, context)
    else
      var before := Run(def, sagaId, context, events[..|events| - 1]);
      if before.snapshot.status != IN_PROGRESS then before
      else
        var next := OnEvent(def, before.snapshot, events[|events| - 1]);
        Outcome(next.snapshot, before.published + next.published)
  }

  /** The payloads of the success events met in step order, and of the failure event that ended them. */
  datatype Trace<+P> = Trace(succeeded: seq<P>, failed: Option<P>)

  function TraceOf<T(==), C, P, K>(def: SagaDefinition<T, C, P, K>, events: seq<SagaEvent<T, P>>): (t: Trace<P>)
    ensures |t.succeeded| <= |def.steps|
    ensures t.failed.Some? ==> |t.succeeded| < |def.steps|
    decreases |events|
  {
    if events == [] then Trace([], None)
    else
      var t := TraceOf(def, events[..|events| - 1]);
      var e := events[|events| - 1];
      var k := |t.succeeded|;
      if t.failed.Some? || k == |def.steps| then t
      else if e.kind == def.steps[k].successEvent then t.(succeeded := t.succeeded + [e.payload])
      else if e.kind == def.steps[k].failureEvent then t.(failed := Some(e.payload))
      else t
  }

  /** The commands of steps 0..k in order, step i built from the context enriched by the first i successes. */
  function ForwardCommands<T, C, P, K>(def: SagaDefinition<T, C, P, K>, context: C, succeeded: seq<P>): seq<K>
    requires |succeeded| <= |def.steps|
  {
    var count := if |succeeded| < |def.steps| then |succeeded| + 1 else |succeeded|;
    seq(count, i requires 0 <= i < count => def.steps[i].command(Fold(def.merge, context, succeeded[..i])))
  }

  function SuccessHistory<T, C, K>(steps: seq<SagaStep<T, C, K>>): seq<HistoryEntry>
  {
    seq(|steps|, i requires 0 <= i < |steps| => HistoryEntry(steps[i].name, Succeeded))
  }

  predicate HasCompensation<T, C, K>(steps: seq<SagaStep<T, C, K>>)
  {
    exists i :: 0 <= i < |steps| && steps[i].compensation.Some?
  }

  /** Everything a run must have done, read off its trace. */
  function Summary<T, C, P, K>(def: SagaDefinition<T, C, P, K>, sagaId: nat, context: C, t: Trace<P>): Outcome<C, K>
    requires def.steps != [] && |t.succeeded| <= |def.steps|
    requires t.failed.Some? ==> |t.succeeded| < |def.steps|
  {
    var k := |t.succeeded|;
    var finalContext := Fold(def.merge, context, t.succeeded + (if t.failed.Some? then [t.failed.value] else []));
    var history := [HistoryEntry(def.steps[0].name, Started)] + SuccessHistory(def.steps[..k])
                 + (if t.failed.Some? then [HistoryEntry(def.steps[k].name, Failed)] else []);
    var status := if t.failed.Some? then (if HasCompensation(def.steps[..k]) then COMPENSATING else COMPENSATED)
                  else if k == |def.steps| then COMPLETED else IN_PROGRESS;
    Outcome(Snapshot(sagaId, def.name, if k == |def.steps| then k - 1 else k, status, finalContext, history),
            ForwardCommands(def, context, t.succeeded) +
            (if t.failed.Some? then Compensations(def.steps[..k], finalContext) else []))
  }

  lemma CompensationsExist<T, C, K>(steps: seq<SagaStep<T, C, K>>, context: C)
    ensures Compensations(steps, context) != [] <==> HasCompensation(steps)
  {
    CompensationOrder(steps, context);
    var undo := UndoIndices(steps);
    if undo != [] {
      assert undo[0] in undo;
      UndoIndicesExact(steps, undo[0]);
    }
    if i: nat :| i < |steps| && steps[i].compensation.Some? {
      UndoIndicesExact(steps, i);
    }
  }

  lemma RunStarts<T, C, P, K>(def: SagaDefinition<T, C, P, K>, sagaId: nat, context: C)
    requires def.steps != []
    ensures StartSaga(def, sagaId, context) == Summary(def, sagaId, context, Trace([], None))
  {
    var none: seq<P> := [];
    assert none[..0] == none && none + [] == none;
    assert Fold(def.merge, context, none[..0]) == context;
    assert ForwardCommands(def, context, none) == [def.steps[0].command(context)];
    assert SuccessHistory(def.steps[..0]) == [];
  }

  lemma SuccessStep<T, C, P, K>(def: SagaDefinition<T, C, P, K>, sagaId: nat, context: C, u: Trace<P>, payload: P)
    requires |u.succeeded| < |def.steps| && u.failed.None?
    ensures
      var before := Summary(def, sagaId, context, u);
      var next := Advance(def, before.snapshot, Fold(def.merge, context, u.succeeded + [payload]));
      Outcome(next.snapshot, before.published + next.published)
        == Summary(def, sagaId, context, u.(succeeded := u.succeeded + [payload]))
  {
    hide Fold;
    var k := |u.succeeded|;
    var succeeded := u.succeeded + [payload];
    assert u.succeeded + [] == u.succeeded && succeeded + [] == succeeded;
    assert SuccessHistory(def.steps[..k + 1]) ==
        SuccessHistory(def.steps[..k]) + [HistoryEntry(def.steps[k].name, Succeeded)];
    assert forall i :: 0 <= i <= k ==> succeeded[..i] == u.succeeded[..i];
    assert succeeded[..k + 1] == succeeded;
    var forward := ForwardCommands(def, context, u.succeeded);
    if k + 1 < |def.steps| {
      assert ForwardCommands(def, context, succeeded) ==
          forward + [def.steps[k + 1].command(Fold(def.merge, context, succeeded))];
    } else {
      assert ForwardCommands(def, context, succeeded) == forward;
    }
  }

  lemma FailureStep<T, C, P, K>(def: SagaDefinition<T, C, P, K>, sagaId: nat, context: C, u: Trace<P>, payload: P)
    requires |u.succeeded| < |def.steps| && u.failed.None?
    ensures
      var before := Summary(def, sagaId, context, u);
      var next := BeginCompensation(def, before.snapshot, Fold(def.merge, context, u.succeeded + [payload]));
      Outcome(next.snapshot, before.published + next.published)
        == Summary(def, sagaId, context, u.(failed := Some(payload)))
  {
    var k := |u.succeeded|;
    assert u.succeeded + [] == u.succeeded;
    CompensationsExist(def.steps[..k], Fold(def.merge, context, u.succeeded + [payload]));
    var before := Summary(def, sagaId, context, u);
    assert before.published == ForwardCommands(def, context, u.succeeded);
    assert before.snapshot.history + [HistoryEntry(def.steps[k].name, Failed)]
        == Summary(def, sagaId, context, u.(failed := Some(payload))).snapshot.history;
  }

  /** Whole-run characterisation, for any definition and any events: history, forward commands, compensations,
      context, index and status are all exactly what the trace of the events calls for. */
  lemma {:induction false} RunCharacterised<T, C, P, K>(def: SagaDefinition<T, C, P, K>, sagaId: nat, context: C,
      events: seq<SagaEvent<T, P>>)
    requires def.steps != []
    ensures Run(def, sagaId, context, events) == Summary(def, sagaId, context, TraceOf(def, events))
    decreases |events|
  {
    if events == [] {
      RunStarts(def, sagaId, context);
    } else {
      var e := events[|events| - 1];
      var u := TraceOf(def, events[..|events| - 1]);
      var k := |u.succeeded|;
      RunCharacterised(def, sagaId, context, events[..|events| - 1]);
      if u.failed.None? && k < |def.steps| {
        assert u.succeeded + [] == u.succeeded;
        FoldSnoc(def.merge, context, u.succeeded, e.payload);
        if e.kind == def.steps[k].successEvent {
          SuccessStep(def, sagaId, context, u, e.payload);
        } else if e.kind == def.steps[k].failureEvent {
          FailureStep(def, sagaId, context, u, e.payload);
        }
      }
    }
  }

  /* ---- Last-in-first-out undo ---- */

  /** Compensating a step takes back exactly what its command did; a step without compensation did nothing. */
  ghost predicate Invertible<T, C, P, K, W(!new)>(def: SagaDefinition<T, C, P, K>, context: C, succeeded: seq<P>,
      finalContext: C, act: (W, K) -> W)
    requires |succeeded| <= |def.steps|
  {
    forall i, w :: 0 <= i < |succeeded| ==>
      var done := act(w, def.steps[i].command(Fold(def.merge, context, succeeded[..i])));
      (if def.steps[i].compensation.Some? then act(done, def.steps[i].compensation.value(finalContext)) else done) == w
  }

  lemma {:induction false} UndoPrefix<T, C, P, K, W(!new)>(def: SagaDefinition<T, C, P, K>, context: C,
      succeeded: seq<P>, k: nat,
                                                           finalContext: C, act: (W, K) -> W, w: W)
    requires k <= |succeeded| < |def.steps| && Invertible(def, context, succeeded, finalContext, act)
    ensures w ==
        Fold(act, w, ForwardCommands(def, context, succeeded)[..k] + Compensations(def.steps[..k], finalContext))
    decreases k
  {
    var forward := ForwardCommands(def, context, succeeded);
    if k == 0 {
      assert forward[..0] + Compensations(def.steps[..0], finalContext) == [];
    } else {
      var j := k - 1;
      var undo := Compensations(def.steps[..j], finalContext);
      assert def.steps[..k][..j] == def.steps[..j];
      assert forward[..k] == forward[..j] + [forward[j]];
      var reached := Fold(act, w, forward[..j]);
      FoldSnoc(act, w, forward[..j], forward[j]);
      var done := act(reached, forward[j]);
      var own := if def.steps[j].compensation.Some? then [def.steps[j].compensation.value(finalContext)] else [];
      assert Compensations(def.steps[..k], finalContext) == own + undo;
      assert Fold(act, done, own) == reached by {
        assert own != [] ==> own[..0] == [];
      }
      FoldConcat(act, w, forward[..k], own + undo);
      FoldConcat(act, done, own, undo);
      FoldConcat(act, w, forward[..j], undo);
      UndoPrefix(def, context, succeeded, j, finalContext, act, w);
    }
  }

  lemma SplitAt<K>(all: seq<K>, forward: seq<K>, undo: seq<K>, k: nat)
    requires all == forward + undo && |forward| == k + 1
    ensures all[..k] == forward[..k] && all[k + 1..] == undo
  {
  }

  /** LIFO undo, for definitions of any length: when a run fails at step k, the effects of the k completed
      steps followed by the compensations the engine publishes compose to the identity. The published log is
      those forward commands, the command of the step that failed (which took no effect), and the compensations. */
  lemma FailedRunIsUndone<T, C, P, K, W(!new)>(def: SagaDefinition<T, C, P, K>, sagaId: nat, context: C,
                                               events: seq<SagaEvent<T, P>>, act: (W, K) -> W, w: W)
    requires def.steps != [] && TraceOf(def, events).failed.Some?
    requires Invertible(def, context, TraceOf(def, events).succeeded,
        Run(def, sagaId, context, events).snapshot.context, act)
    ensures
      var k := |TraceOf(def, events).succeeded|;
      var published := Run(def, sagaId, context, events).published;
      k < |published| && Fold(act, w, published[..k] + published[k + 1..]) == w
  {
    var t := TraceOf(def, events);
    var k := |t.succeeded|;
    var run := Run(def, sagaId, context, events);
    RunCharacterised(def, sagaId, context, events);
    UndoPrefix(def, context, t.succeeded, k, run.snapshot.context, act, w);
    var forward := ForwardCommands(def, context, t.succeeded);
    var undo := Compensations(def.steps[..k], run.snapshot.context);
    assert |forward| == k + 1;
    SplitAt(run.published, forward, undo, k);
  }

  /* ---- Redelivered and foreign events ---- */

  /** One event through the orchestrator's guard: a COMPLETED or COMPENSATED saga ignores it. */
  function Feed<T(==), C, P, K>(def: SagaDefinition<T, C, P, K>, snapshot: Snapshot<C>, e: SagaEvent<T, P>):
    Outcome<C, K>
    requires snapshot.currentStepIndex < |def.steps|
  {
    if snapshot.status == COMPLETED || snapshot.status == COMPENSATED then Outcome(snapshot, [])
    else OnEvent(def, snapshot, e)
  }

  function Serial<T(==), C, P, K>(def: SagaDefinition<T, C, P, K>, snapshot: Snapshot<C>,
      events: seq<SagaEvent<T, P>>):
    Outcome<C, K>
    requires snapshot.currentStepIndex < |def.steps|
    decreases |events|
  {
    if events == [] then Outcome(snapshot, [])
    else
      var first := Feed(def, snapshot, events[0]);
      var rest := Serial(def, first.snapshot, events[1..]);
      Outcome(rest.snapshot, first.published + rest.published)
  }

  predicate DistinctEventTypes<T(==), C, P, K>(def: SagaDefinition<T, C, P, K>)
  {
    && (forall i, j :: 0 <= i < |def.steps| && 0 <= j < |def.steps| ==>
        def.steps[i].successEvent != def.steps[j].failureEvent)
    && (forall i, j :: 0 <= i < j < |def.steps| ==>
          && def.steps[i].successEvent != def.steps[j].successEvent
          && def.steps[i].failureEvent != def.steps[j].failureEvent)
  }

  /** No step that comes before another one has a compensation: nothing is ever compensated. */
  predicate NoCompensablePrefix<T, C, P, K>(def: SagaDefinition<T, C, P, K>)
  {
    def.steps != [] && !HasCompensation(def.steps[..|def.steps| - 1])
  }

  /** With no compensable step before another, COMPENSATING is never entered. */
  lemma NeverCompensating<T, C, P, K>(def: SagaDefinition<T, C, P, K>, snapshot: Snapshot<C>, e: SagaEvent<T, P>)
    requires NoCompensablePrefix(def) && snapshot.currentStepIndex < |def.steps|
    ensures Feed(def, snapshot, e).snapshot.status == COMPENSATING ==> Feed(def, snapshot, e) == Outcome(snapshot, [])
  {
    var k := snapshot.currentStepIndex;
    CompensationsExist(def.steps[..k], def.merge(snapshot.context, e.payload));
    assert forall i :: 0 <= i < k ==> def.steps[..k][i] == def.steps[..|def.steps| - 1][i];
  }

  /** No step listens to the event's type. */
  predicate Foreign<T(==), C, P, K>(def: SagaDefinition<T, C, P, K>, e: SagaEvent<T, P>)
  {
    forall i :: 0 <= i < |def.steps| ==> e.kind != def.steps[i].successEvent && e.kind != def.steps[i].failureEvent
  }

  /** The event is what a saga in this state is waiting for. */
  predicate Consumes<T(==), C, P, K>(def: SagaDefinition<T, C, P, K>, snapshot: Snapshot<C>, e: SagaEvent<T, P>)
    requires snapshot.currentStepIndex < |def.steps|
  {
    var step := def.steps[snapshot.currentStepIndex];
    && snapshot.status != COMPLETED && snapshot.status != COMPENSATED
    && (e.kind == step.successEvent || e.kind == step.failureEvent)
  }

  /** `delivered` is `events` with extra deliveries inserted anywhere: foreign events, and further copies of events
      the run has consumed before (`seen`), each any number of times and however late. */
  predicate Redelivered<T(==), C, P(==), K>(def: SagaDefinition<T, C, P, K>, snapshot: Snapshot<C>,
      seen: seq<SagaEvent<T, P>>, events: seq<SagaEvent<T, P>>, delivered: seq<SagaEvent<T, P>>)
    requires snapshot.currentStepIndex < |def.steps|
    decreases |delivered|
  {
    if delivered == [] then events == []
    else
      || ((Foreign(def, delivered[0]) || delivered[0] in seen) &&
          Redelivered(def, snapshot, seen, events, delivered[1..]))
      || (events != [] && events[0] == delivered[0]
          && Redelivered(def, Feed(def, snapshot, events[0]).snapshot,
                         if Consumes(def, snapshot, events[0]) then seen + [events[0]] else seen,
                         events[1..], delivered[1..]))
  }

  /** Over, or past the step whose success the event is, or not listening to it at all. */
  predicate Stale<T(==), C, P, K>(def: SagaDefinition<T, C, P, K>, snapshot: Snapshot<C>, e: SagaEvent<T, P>)
  {
    || snapshot.status == COMPLETED || snapshot.status == COMPENSATED
    || (exists i :: 0 <= i < snapshot.currentStepIndex && i < |def.steps| && e.kind == def.steps[i].successEvent)
    || Foreign(def, e)
  }

  lemma StaleIsIgnored<T, C, P, K>(def: SagaDefinition<T, C, P, K>, snapshot: Snapshot<C>, e: SagaEvent<T, P>)
    requires DistinctEventTypes(def) && snapshot.currentStepIndex < |def.steps| && Stale(def, snapshot, e)
    ensures Feed(def, snapshot, e) == Outcome(snapshot, [])
  {
  }

  /** What a saga has consumed is stale for it from then on... */
  lemma ConsumedIsStale<T, C, P, K>(def: SagaDefinition<T, C, P, K>, snapshot: Snapshot<C>, e: SagaEvent<T, P>)
    requires NoCompensablePrefix(def) && snapshot.currentStepIndex < |def.steps| && Consumes(def, snapshot, e)
    ensures Stale(def, Feed(def, snapshot, e).snapshot, e)
  {
    NeverCompensating(def, snapshot, e);
    var after := Feed(def, snapshot, e).snapshot;
    assert |after.history| == |snapshot.history| + 1;
  }

  /** ...because the step index never goes back and the guard never opens again. */
  lemma StaleStays<T, C, P, K>(def: SagaDefinition<T, C, P, K>, snapshot: Snapshot<C>, e: SagaEvent<T, P>,
      next: SagaEvent<T, P>)
    requires snapshot.currentStepIndex < |def.steps| && Stale(def, snapshot, e)
    ensures Stale(def, Feed(def, snapshot, next).snapshot, e)
  {
  }

  lemma {:induction false} RedeliveryFrom<T, C, P, K>(def: SagaDefinition<T, C, P, K>, snapshot: Snapshot<C>,
      seen: seq<SagaEvent<T, P>>, events: seq<SagaEvent<T, P>>, delivered: seq<SagaEvent<T, P>>)
    requires DistinctEventTypes(def) && NoCompensablePrefix(def) && snapshot.currentStepIndex < |def.steps|
    requires forall i :: 0 <= i < |seen| ==> Stale(def, snapshot, seen[i])
    requires Redelivered(def, snapshot, seen, events, delivered)
    ensures Serial(def, snapshot, delivered) == Serial(def, snapshot, events)
    decreases |delivered|
  {
    if delivered != [] {
      var e := delivered[0];
      if (Foreign(def, e) || e in seen) && Redelivered(def, snapshot, seen, events, delivered[1..]) {
        StaleIsIgnored(def, snapshot, e);
        RedeliveryFrom(def, snapshot, seen, events, delivered[1..]);
      } else {
        var after := Feed(def, snapshot, e).snapshot;
        forall i | 0 <= i < |seen| ensures Stale(def, after, seen[i]) { StaleStays(def, snapshot, seen[i], e); }
        if Consumes(def, snapshot, e) {
          ConsumedIsStale(def, snapshot, e);
          RedeliveryFrom(def, after, seen + [e], events[1..], delivered[1..]);
        } else {
          RedeliveryFrom(def, after, seen, events[1..], delivered[1..]);
        }
      }
    }
  }

  /** Stuttering: for definitions with pairwise distinct event types and no compensable prefix, delivering events
      the run has already consumed again, and foreign events, anywhere in a serial run changes neither the final
      snapshot nor the published commands. */
  lemma StutteringInsensitive<T, C, P, K>(def: SagaDefinition<T, C, P, K>, snapshot: Snapshot<C>,
                                          events: seq<SagaEvent<T, P>>, delivered: seq<SagaEvent<T, P>>)
    requires DistinctEventTypes(def) && NoCompensablePrefix(def) && snapshot.currentStepIndex < |def.steps|
    requires Redelivered(def, snapshot, [], events, delivered)
    ensures Serial(def, snapshot, delivered) == Serial(def, snapshot, events)
  {
    RedeliveryFrom(def, snapshot, [], events, delivered);
  }

  /** The guard leaves COMPENSATING out. A redelivered failure event is absorbed exactly when no step before
      the failed one has a compensation; otherwise every compensation is published again. */
  lemma FailureRedeliveryAbsorbedExactly<T, C, P, K>(def: SagaDefinition<T, C, P, K>, snapshot: Snapshot<C>,
      e: SagaEvent<T, P>)
    requires snapshot.currentStepIndex < |def.steps| && snapshot.status == IN_PROGRESS
    requires def.steps[snapshot.currentStepIndex].successEvent != e.kind
    requires def.steps[snapshot.currentStepIndex].failureEvent == e.kind
    ensures
      var first := Feed(def, snapshot, e);
      var second := Feed(def, first.snapshot, e);
      && (second == Outcome(first.snapshot, []) <==> !HasCompensation(def.steps[..snapshot.currentStepIndex]))
      && |second.published| == |first.published|
  {
    var k := snapshot.currentStepIndex;
    var once := def.merge(snapshot.context, e.payload);
    var twice := def.merge(once, e.payload);
    CompensationsExist(def.steps[..k], once);
    CompensationsExist(def.steps[..k], twice);
    CompensationOrder(def.steps[..k], once);
    CompensationOrder(def.steps[..k], twice);
  }
}

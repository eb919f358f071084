/** At-least-once consumption: a consumer that commits offsets after processing, crashes anywhere and restarts
    from the last committed offset, ends up as if every command had been processed once, in order. */
module Redelivery {
  import opened Basics

  /** A handler either finishes or throws (None). The input N is what an attempt mints or is told from outside. */
  type Handler<!S, !C, !N> = (S, C, N) -> Option<S>

  datatype Consumer<+S> = Consumer(store: S, position: nat, committed: nat)

  datatype Step<+N> =
    | Process(input: N, commits: bool)
    | CrashMidway(input: N)
    | CrashBeforeCommit(input: N)
    | Restart

  /** Position always falls back to the committed offset after a crash, and after a throw. */
  function Consume<S, C, N>(handle: Handler<S, C, N>, midway: (S, C, N) -> S, log: seq<C>, k: Consumer<S>,
      step: Step<N>):
    Consumer<S>
  {
    if step.Restart? || k.position >= |log| then k.(position := k.committed)
    else
      var c := log[k.position];
      var done := handle(k.store, c, step.input);
      match step
      case Process(input, commits) =>
        if done.None? then Consumer(midway(k.store, c, input), k.committed, k.committed)
        else Consumer(done.value, k.position + 1, if commits then k.position + 1 else k.committed)
      case CrashMidway(input) => Consumer(midway(k.store, c, input), k.committed, k.committed)
      case CrashBeforeCommit(input) =>
        Consumer(if done.Some? then done.value else midway(k.store, c, input), k.committed, k.committed)
  }

  function ConsumeAll<S, C, N>(handle: Handler<S, C, N>, midway: (S, C, N) -> S, log: seq<C>, init: S,
      steps: seq<Step<N>>):
    Consumer<S>
  {
    if steps == [] then Consumer(init, 0, 0)
    else Consume(handle, midway, log, ConsumeAll(handle, midway, log, init, steps[..|steps| - 1]), steps[|steps| - 1])
  }

  /** Processing the first |inputs| commands of the log exactly once each. */
  function Once<S, C, N>(handle: Handler<S, C, N>, log: seq<C>, init: S, inputs: seq<N>): Option<S>
    requires |inputs| <= |log|
    decreases |inputs|
  {
    if inputs == [] then Some(init)
    else
      var n := |inputs| - 1;
      var before := Once(handle, log, init, inputs[..n]);
      if before.None? then None else handle(before.value, log[n], inputs[n])
  }

  /** `handled` says, from the store alone, that a command has taken its effect; `valid` is what every store
      the handlers can produce satisfies. */
  ghost predicate Idempotent<S(!new), C(!new), N(!new)>(handle: Handler<S, C, N>, midway: (S, C, N) -> S,
                                                        handled: (S, C) -> bool, valid: S -> bool)
  {
    && (forall s, c, n :: valid(s) ==> valid(midway(s, c, n)))
    && (forall s, c, n :: valid(s) && handle(s, c, n).Some? ==>
        valid(handle(s, c, n).value) && handled(handle(s, c, n).value, c))
    && (forall s, c, n :: valid(s) && handled(s, c) ==> handle(s, c, n) == Some(s) && midway(s, c, n) == s)
    && (forall s, c, d, n :: valid(s) && handled(s, d) && handle(s, c, n).Some? ==> handled(handle(s, c, n).value, d))
    && (forall s, c, d, n :: valid(s) && handled(s, d) ==> handled(midway(s, c, n), d))
  }

  /** A crash in the middle of a handler only fixes part of the input of the attempt that follows it:
      `resume(m, n)` is the input of one uninterrupted attempt equivalent to breaking off with m, then n. */
  ghost predicate Resumable<S(!new), C(!new), N(!new)>(handle: Handler<S, C, N>, midway: (S, C, N) -> S,
      resume: (N, N) -> N)
  {
    && (forall s, c, m, n :: midway(midway(s, c, m), c, n) == midway(s, c, m))
    && (forall s, c, m, n :: handle(midway(s, c, m), c, n) == handle(s, c, resume(m, n)))
  }

  /** How far a consumer has really come: one input per finished command, and perhaps the next command begun. */
  datatype Progress<+N> = Progress(inputs: seq<N>, begun: Option<N>)

  function Begin<S, C, N>(midway: (S, C, N) -> S, base: S, c: C, begun: Option<N>): S
  {
    if begun.None? then base else midway(base, c, begun.value)
  }

  /** The store is that of processing a prefix of the log once, in order; the prefix reaches at least the
      position, everything in it is handled, and beyond it at most the next command is begun. */
  ghost predicate Explains<S, C, N>(handle: Handler<S, C, N>, midway: (S, C, N) -> S, handled: (S, C) -> bool,
      valid: S -> bool,
                                    log: seq<C>, init: S, k: Consumer<S>, p: Progress<N>)
  {
    var n := |p.inputs|;
    && valid(k.store)
    && k.committed <= k.position <= n <= |log|
    && Once(handle, log, init, p.inputs).Some?
    && (p.begun.Some? ==> n < |log|)
    && (var base := Once(handle, log, init, p.inputs).value;
        k.store == if n < |log| then Begin(midway, base, log[n], p.begun) else base)
    && (forall i :: 0 <= i < n ==> handled(k.store, log[i]))
  }

  lemma OnceMore<S, C, N>(handle: Handler<S, C, N>, log: seq<C>, init: S, inputs: seq<N>, input: N)
    requires |inputs| < |log| && Once(handle, log, init, inputs).Some?
    ensures Once(handle, log, init, inputs + [input]) ==
        handle(Once(handle, log, init, inputs).value, log[|inputs|], input)
  {
    assert (inputs + [input])[..|inputs|] == inputs;
  }

  /** Finishing the first command not yet finished. */
  lemma FinishNext<S(!new), C(!new), N(!new)>(handle: Handler<S, C, N>, midway: (S, C, N) -> S, handled: (S, C) -> bool,
      valid: S -> bool,
      resume: (N, N) -> N, log: seq<C>, init: S, k: Consumer<S>, p: Progress<N>, input: N, position: nat,
      committed: nat)
    returns (after: Progress<N>)
    requires Idempotent(handle, midway, handled, valid) && Resumable(handle, midway, resume)
    requires Explains(handle, midway, handled, valid, log, init, k, p) && |p.inputs| < |log|
    requires handle(k.store, log[|p.inputs|], input).Some?
    requires committed <= position <= |p.inputs| + 1
    ensures Explains(handle, midway, handled, valid, log, init,
                     Consumer(handle(k.store, log[|p.inputs|], input).value, position, committed), after)
  {
    var c := log[|p.inputs|];
    var used := if p.begun.None? then input else resume(p.begun.value, input);
    after := Progress(p.inputs + [used], None);
    OnceMore(handle, log, init, p.inputs, used);
    var next := handle(k.store, c, input).value;
    forall i | 0 <= i < |after.inputs|
      ensures handled(next, log[i])
    {
      if i < |p.inputs| { assert handled(k.store, log[i]); }
    }
  }

  /** Breaking off while handling the first command not yet finished. */
  lemma BreakOff<S(!new), C(!new), N(!new)>(handle: Handler<S, C, N>, midway: (S, C, N) -> S, handled: (S, C) -> bool,
      valid: S -> bool,
      resume: (N, N) -> N, log: seq<C>, init: S, k: Consumer<S>, p: Progress<N>, input: N) returns (after: Progress<N>)
    requires Idempotent(handle, midway, handled, valid) && Resumable(handle, midway, resume)
    requires Explains(handle, midway, handled, valid, log, init, k, p) && |p.inputs| < |log|
    ensures Explains(handle, midway, handled, valid, log, init,
                     Consumer(midway(k.store, log[|p.inputs|], input), k.committed, k.committed), after)
  {
    after := Progress(p.inputs, if p.begun.None? then Some(input) else p.begun);
    forall i | 0 <= i < |p.inputs|
      ensures handled(midway(k.store, log[|p.inputs|], input), log[i])
    {
      assert handled(k.store, log[i]);
    }
  }

  /** A command inside the finished prefix is a redelivery: whatever happens to it, the store stays. */
  lemma RedeliveryChangesNothing<S(!new), C(!new), N(!new)>(handle: Handler<S, C, N>, midway: (S, C, N) -> S,
      handled: (S, C) -> bool, valid: S -> bool, log: seq<C>, init: S, k: Consumer<S>, p: Progress<N>, step: Step<N>)
    requires Idempotent(handle, midway, handled, valid)
    requires Explains(handle, midway, handled, valid, log, init, k, p) && k.position < |p.inputs|
    ensures
      var next := Consume(handle, midway, log, k, step);
      next.store == k.store && next.committed <= next.position <= |p.inputs|
  {
    assert handled(k.store, log[k.position]);
  }

  lemma Reposition<S, C, N>(handle: Handler<S, C, N>, midway: (S, C, N) -> S, handled: (S, C) -> bool, valid: S -> bool,
                            log: seq<C>, init: S, k: Consumer<S>, next: Consumer<S>, p: Progress<N>)
    requires Explains(handle, midway, handled, valid, log, init, k, p)
    requires next.store == k.store && next.committed <= next.position <= |p.inputs|
    ensures Explains(handle, midway, handled, valid, log, init, next, p)
  {
  }

  /** What a step away from the end of the log does, in one line each way. */
  lemma ConsumeFinishesOrBreaksOff<S, C, N>(handle: Handler<S, C, N>, midway: (S, C, N) -> S, log: seq<C>,
      k: Consumer<S>, step: Step<N>)
    requires k.position < |log| && !step.Restart?
    ensures
      var c, next := log[k.position], Consume(handle, midway, log, k, step);
      if !step.CrashMidway? && handle(k.store, c, step.input).Some? then
        next == Consumer(handle(k.store, c, step.input).value, next.position, next.committed)
        && (next.committed <= k.committed || next.committed == k.position + 1)
        && (next.position == k.position + 1 || (next.position == k.committed && next.committed == k.committed))
      else next == Consumer(midway(k.store, c, step.input), k.committed, k.committed)
  {
  }

  lemma FrontierStep<S(!new), C(!new), N(!new)>(handle: Handler<S, C, N>, midway: (S, C, N) -> S,
      handled: (S, C) -> bool, valid: S -> bool,
      resume: (N, N) -> N, log: seq<C>, init: S, k: Consumer<S>, p: Progress<N>, step: Step<N>, next: Consumer<S>)
    returns (after: Progress<N>)
    requires Idempotent(handle, midway, handled, valid) && Resumable(handle, midway, resume)
    requires Explains(handle, midway, handled, valid, log, init, k, p)
    requires k.position == |p.inputs| < |log| && !step.Restart?
    requires next == Consume(handle, midway, log, k, step)
    ensures Explains(handle, midway, handled, valid, log, init, next, after)
  {
    ConsumeFinishesOrBreaksOff(handle, midway, log, k, step);
    if !step.CrashMidway? && handle(k.store, log[k.position], step.input).Some? {
      after := FinishNext(handle, midway, handled, valid, resume, log, init, k, p, step.input, next.position,
          next.committed);
    } else {
      after := BreakOff(handle, midway, handled, valid, resume, log, init, k, p, step.input);
    }
  }

  lemma StepStaysExplained<S(!new), C(!new), N(!new)>(handle: Handler<S, C, N>, midway: (S, C, N) -> S,
      handled: (S, C) -> bool, valid: S -> bool,
      resume: (N, N) -> N, log: seq<C>, init: S, k: Consumer<S>, p: Progress<N>, step: Step<N>)
    returns (after: Progress<N>)
    requires Idempotent(handle, midway, handled, valid) && Resumable(handle, midway, resume)
    requires Explains(handle, midway, handled, valid, log, init, k, p)
    ensures Explains(handle, midway, handled, valid, log, init, Consume(handle, midway, log, k, step), after)
  {
    if step.Restart? || k.position < |p.inputs| || k.position == |log| {
      after := p;
      if !step.Restart? && k.position < |p.inputs| {
        RedeliveryChangesNothing(handle, midway, handled, valid, log, init, k, p, step);
      }
      Reposition(handle, midway, handled, valid, log, init, k, Consume(handle, midway, log, k, step), p);
    } else {
      after := FrontierStep(handle, midway, handled, valid, resume, log, init, k, p, step,
          Consume(handle, midway, log, k, step));
    }
  }

  /** Redelivery absorption, for any idempotent handler, any valid first store, any command log, and any sequence of
      processing steps, throws, crashes (before, midway through or after a handler) and restarts from the committed
      offset: the store is that of processing a prefix of the log exactly once in order, with the next command at
      most begun. */
  lemma {:induction false} ReplaysAreAbsorbed<S(!new), C(!new), N(!new)>(handle: Handler<S, C, N>,
      midway: (S, C, N) -> S, handled: (S, C) -> bool, valid: S -> bool, resume: (N, N) -> N, log: seq<C>, init: S,
      steps: seq<Step<N>>)
    returns (p: Progress<N>)
    requires Idempotent(handle, midway, handled, valid) && Resumable(handle, midway, resume) && valid(init)
    ensures Explains(handle, midway, handled, valid, log, init, ConsumeAll(handle, midway, log, init, steps), p)
    decreases |steps|
  {
    if steps == [] {
      p := Progress([], None);
    } else {
      var before := steps[..|steps| - 1];
      var q := ReplaysAreAbsorbed(handle, midway, handled, valid, resume, log, init, before);
      p := StepStaysExplained(handle, midway, handled, valid, resume, log, init,
                              ConsumeAll(handle, midway, log, init, before), q, steps[|steps| - 1]);
    }
  }

  /** Once the consumer stands at the end of the log, its store is exactly one processing of the whole log. */
  lemma CaughtUpMeansOnce<S(!new), C(!new), N(!new)>(handle: Handler<S, C, N>, midway: (S, C, N) -> S,
      handled: (S, C) -> bool, valid: S -> bool, resume: (N, N) -> N, log: seq<C>, init: S, steps: seq<Step<N>>)
    requires Idempotent(handle, midway, handled, valid) && Resumable(handle, midway, resume) && valid(init)
    requires ConsumeAll(handle, midway, log, init, steps).position == |log|
    ensures exists inputs: seq<N> ::
              && |inputs| == |log|
              && Once(handle, log, init, inputs) == Some(ConsumeAll(handle, midway, log, init, steps).store)
  {
    var p := ReplaysAreAbsorbed(handle, midway, handled, valid, resume, log, init, steps);
    assert
      && |p.inputs| == |log|
      && Once(handle, log, init, p.inputs) == Some(ConsumeAll(handle, midway, log, init, steps).store);
  }
}

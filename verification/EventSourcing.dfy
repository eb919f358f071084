/** Aggregates: state changes only through a reducer, so replaying the stored events rebuilds the object. */
module EventSourcing {
  import opened Basics

  datatype StoredEvent<+E> = StoredEvent(sequence: nat, event: E)

  /** The history continues a stream of `after` events without a gap. */
  predicate Contiguous<E>(history: seq<StoredEvent<E>>, after: nat)
  {
    forall i :: 0 <= i < |history| ==> history[i].sequence == after + i + 1
  }

  function Payloads<E>(history: seq<StoredEvent<E>>): seq<E>
  {
    seq(|history|, i requires 0 <= i < |history| => history[i].event)
  }

  class AggregateRoot<S, E(!new)> {
    const id: nat
    const blank: S
    const reducer: (S, E) -> S
    var state: S
    var version: nat
    var uncommitted: seq<E>

    /** The live object is the replay of what is stored followed by what is not stored yet. */
    ghost predicate Tracks(stored: seq<E>)
      reads this
    {
      && state == Fold(reducer, blank, stored + uncommitted)
      && version == |stored| + |uncommitted|
    }

    constructor (id: nat, blank: S, reducer: (S, E) -> S)
      ensures this.id == id && this.blank == blank && this.reducer == reducer
      ensures state == blank && version == 0 && uncommitted == []
      ensures Tracks([])
    {
      this.id, this.blank, this.reducer := id, blank, reducer;
      state, version, uncommitted := blank, 0, [];
    }

    method Apply(e: E)
      modifies this
      ensures state == reducer(old(state), e)
      ensures version == old(version) + 1
      ensures uncommitted == old(uncommitted) + [e]
      ensures forall stored :: old(Tracks(stored)) ==> Tracks(stored)
    {
      state := reducer(state, e);
      version := version + 1;
      uncommitted := uncommitted + [e];
      forall stored | old(Tracks(stored))
        ensures Tracks(stored)
      {
        FoldSnoc(reducer, blank, stored + old(uncommitted), e);
        assert stored + uncommitted == stored + old(uncommitted) + [e];
      }
    }

    /** Rebuilds from a stored history; the version becomes the last stored sequence number. */
    method Hydrate(history: seq<StoredEvent<E>>)
      modifies this
      ensures uncommitted == old(uncommitted)
      ensures state == Fold(reducer, old(state), Payloads(history))
      ensures version == if history == [] then old(version) else history[|history| - 1].sequence
      ensures forall stored :: old(Tracks(stored)) && old(uncommitted) == [] && Contiguous(history, |stored|)
                               ==> Tracks(stored + Payloads(history))
    {
      var i := 0;
      while i < |history|
        invariant 0 <= i <= |history|
        invariant uncommitted == old(uncommitted)
        invariant state == Fold(reducer, old(state), Payloads(history[..i]))
        invariant version == if i == 0 then old(version) else history[i - 1].sequence
      {
        assert Payloads(history[..i + 1]) == Payloads(history[..i]) + [history[i].event];
        FoldSnoc(reducer, old(state), Payloads(history[..i]), history[i].event);
        state := reducer(state, history[i].event);
        version := history[i].sequence;
        i := i + 1;
      }
      assert history[..i] == history;
      forall stored | old(Tracks(stored)) && old(uncommitted) == [] && Contiguous(history, |stored|)
        ensures Tracks(stored + Payloads(history))
      {
        assert stored + old(uncommitted) == stored;
        FoldConcat(reducer, blank, stored, Payloads(history));
        assert stored + Payloads(history) + uncommitted == stored + Payloads(history);
      }
    }

    method MarkEventsAsCommitted()
      modifies this
      ensures uncommitted == [] && state == old(state) && version == old(version)
      ensures forall stored :: old(Tracks(stored)) ==> Tracks(stored + old(uncommitted))
    {
      uncommitted := [];
      forall stored | old(Tracks(stored))
        ensures Tracks(stored + old(uncommitted))
      {
        assert stored + old(uncommitted) + [] == stored + old(uncommitted);
      }
    }
  }

  /* ---- Whole lives of an aggregate, as values ---- */

  /** One thing that happens to a live object: a domain call, or a save that reached the store. */
  datatype Op<+C> = Call(command: C) | Save

  datatype Life<+S, +E> = Life(state: S, version: nat, uncommitted: seq<E>, stored: seq<E>)

  /** A domain call asks `decide`; None stands for the guard throwing, which changes nothing. */
  function Perform<S, C, E>(decide: (S, C) -> Option<E>, reducer: (S, E) -> S, l: Life<S, E>, op: Op<C>): Life<S, E>
  {
    match op
    case Save => l.(stored := l.stored + l.uncommitted, uncommitted := [])
    case Call(c) =>
      match decide(l.state, c)
      case None => l
      case Some(e) => l.(state := reducer(l.state, e), version := l.version + 1, uncommitted := l.uncommitted + [e])
  }

  function Live<S, C, E>(decide: (S, C) -> Option<E>, reducer: (S, E) -> S, blank: S, ops: seq<Op<C>>): Life<S, E>
  {
    if ops == [] then Life(blank, 0, [], [])
    else Perform(decide, reducer, Live(decide, reducer, blank, ops[..|ops| - 1]), ops[|ops| - 1])
  }

  /** Replay equals live: for every sequence of domain calls and saves, hydrating a blank object from the
      stored events gives the live state and version once everything is saved, and in general the live
      version less the pending events is the stored stream length. */
  lemma {:induction false} ReplayEqualsLive<S, C, E>(decide: (S, C) -> Option<E>, reducer: (S, E) -> S, blank: S,
      ops: seq<Op<C>>)
    ensures
      var l := Live(decide, reducer, blank, ops);
      && l.state == Fold(reducer, blank, l.stored + l.uncommitted)
      && l.version - |l.uncommitted| == |l.stored|
      && (l.uncommitted == [] ==> l.state == Fold(reducer, blank, l.stored) && l.version == |l.stored|)
    decreases |ops|
  {
    var l := Live(decide, reducer, blank, ops);
    if ops != [] {
      var before := Live(decide, reducer, blank, ops[..|ops| - 1]);
      ReplayEqualsLive(decide, reducer, blank, ops[..|ops| - 1]);
      match ops[|ops| - 1] {
        case Save =>
        case Call(c) =>
          if decide(before.state, c).Some? {
            var e := decide(before.state, c).value;
            FoldSnoc(reducer, blank, before.stored + before.uncommitted, e);
            assert l.stored + l.uncommitted == before.stored + before.uncommitted + [e];
          }
      }
    }
    assert l.stored + [] == l.stored;
  }

  /** What every guarded call keeps, every life keeps: stored and pending events together stay legal. */
  lemma {:induction false} LivesStayLegal<S, C(!new), E(!new)>(decide: (S, C) -> Option<E>, reducer: (S, E) -> S,
      blank: S, legal: seq<E> -> bool, ops: seq<Op<C>>)
    requires legal([])
    requires forall events, c :: legal(events) && decide(Fold(reducer, blank, events), c).Some? ==>
                                   legal(events + [decide(Fold(reducer, blank, events), c).value])
    ensures
      var l := Live(decide, reducer, blank, ops);
      legal(l.stored + l.uncommitted)
    decreases |ops|
  {
    if ops == [] {
      assert [] + [] == Live(decide, reducer, blank, ops).stored;
    } else {
      var before, op := Live(decide, reducer, blank, ops[..|ops| - 1]), ops[|ops| - 1];
      var l := Live(decide, reducer, blank, ops);
      var events := before.stored + before.uncommitted;
      LivesStayLegal(decide, reducer, blank, legal, ops[..|ops| - 1]);
      ReplayEqualsLive(decide, reducer, blank, ops[..|ops| - 1]);
      if op.Call? && decide(before.state, op.command).Some? {
        assert l.stored + l.uncommitted == events + [decide(before.state, op.command).value];
      } else {
        assert l.stored + l.uncommitted == events;
      }
    }
  }
}

/** The write path every service shares: event rows, outbox rows and a projection row, in one transaction. */
module Persistence {
  import opened Basics
  import opened EventSourcing

  /** The read-model row: a copy of the aggregate's state and version. */
  datatype Projection<+S> = Projection(state: S, version: nat)

  datatype OutboxRow<+E> = OutboxRow(aggregateId: nat, event: E)

  /** The committed tables of one service, with every event stream as a sequence (position n holds sequence n + 1). */
  datatype Tables<+E, +S> =
    Tables(streams: map<nat, seq<E>>, rows: map<nat, Projection<S>>, outbox: seq<OutboxRow<E>>) {

    function Stream(id: nat): seq<E> { if id in streams then streams[id] else [] }

    function Head(id: nat): Option<E> { if Stream(id) != [] then Some(Stream(id)[0]) else None }
  }

  function OutboxRows<E>(id: nat, events: seq<E>): seq<OutboxRow<E>>
  {
    seq(|events|, i requires 0 <= i < |events| => OutboxRow(id, events[i]))
  }

  /** A unique index on the projection: `clash` says which states may not appear in two different rows. */
  predicate Collides<S>(clash: (S, S) -> bool, rows: map<nat, Projection<S>>, id: nat, state: S)
  {
    exists other :: other in rows && other != id && clash(rows[other].state, state)
  }

  /** A save of an aggregate loaded at `expectedVersion`. None is the unique violation that surfaces as
      ConcurrencyError: the next sequence number is taken, or a unique index on the projection is hit. */
  function SaveTables<E, S>(clash: (S, S) -> bool, t: Tables<E, S>, id: nat, expectedVersion: nat, events: seq<E>,
      row: Projection<S>)
    : Option<Tables<E, S>>
  {
    if events == [] then Some(t)
    else if expectedVersion < |t.Stream(id)| || Collides(clash, t.rows, id, row.state) then None
    else Some(Tables(t.streams[id := t.Stream(id) + events], t.rows[id := row], t.outbox + OutboxRows(id, events)))
  }

  function EventsFor<E>(outbox: seq<OutboxRow<E>>, id: nat): seq<E>
  {
    if outbox == [] then []
    else
      var last := outbox[|outbox| - 1];
      EventsFor(outbox[..|outbox| - 1], id) + (if last.aggregateId == id then [last.event] else [])
  }

  /** Every projection row is the replay of its stream with the stream's length as version, and the outbox
      holds exactly the stored events, per aggregate and in order. */
  ghost predicate Consistent<E, S>(t: Tables<E, S>, replay: seq<E> -> S)
  {
    && t.rows.Keys == t.streams.Keys
    && (forall id :: id in t.streams ==>
          t.streams[id] != [] && t.rows[id] == Projection(replay(t.streams[id]), |t.streams[id]|))
    && (forall id :: EventsFor(t.outbox, id) == t.Stream(id))
  }

  lemma {:induction false} OutboxGrows<E>(outbox: seq<OutboxRow<E>>, id: nat, events: seq<E>, other: nat)
    ensures EventsFor(outbox + OutboxRows(id, events), other) ==
        EventsFor(outbox, other) + (if id == other then events else [])
    decreases |events|
  {
    var all := outbox + OutboxRows(id, events);
    if events == [] {
      assert all == outbox;
    } else {
      var n := |events| - 1;
      assert all[..|all| - 1] == outbox + OutboxRows(id, events[..n]);
      OutboxGrows(outbox, id, events[..n], other);
      assert events == events[..n] + [events[n]];
    }
  }

  /** A save keeps the three tables in agreement: no stored event without its outbox row, no projection row
      that is not the replay of its stream. */
  lemma SaveKeepsConsistent<E, S>(clash: (S, S) -> bool, t: Tables<E, S>, replay: seq<E> -> S,
                                  id: nat, expectedVersion: nat, events: seq<E>, row: Projection<S>)
    requires Consistent(t, replay)
    requires expectedVersion <= |t.Stream(id)|
    requires row == Projection(replay(t.Stream(id)[..expectedVersion] + events), expectedVersion + |events|)
    ensures
      var saved := SaveTables(clash, t, id, expectedVersion, events, row);
      saved.Some? ==> Consistent(saved.value, replay)
  {
    var saved := SaveTables(clash, t, id, expectedVersion, events, row);
    if saved.Some? && events != [] {
      var after, stream := saved.value, t.Stream(id) + events;
      assert t.Stream(id)[..expectedVersion] == t.Stream(id);
      assert after.streams == t.streams[id := stream] && after.rows == t.rows[id := row] && stream != [];
      forall other ensures EventsFor(after.outbox, other) == after.Stream(other) {
        OutboxGrows(t.outbox, id, events, other);
      }
    }
  }

  /** The save every handler makes: one new event on an aggregate hydrated from `loaded`. */
  function SaveNext<E, S>(clash: (S, S) -> bool, replay: seq<E> -> S, t: Tables<E, S>, id: nat, loaded: seq<E>, e: E)
    : Option<Tables<E, S>>
  {
    SaveTables(clash, t, id, |loaded|, [e], Projection(replay(loaded + [e]), |loaded| + 1))
  }

  /** One event more on one aggregate: stored, in the outbox, and in the projection row. */
  ghost predicate Appended<E, S>(t: Tables<E, S>, after: Tables<E, S>, id: nat, e: E, state: S)
  {
    && after.streams == t.streams[id := t.Stream(id) + [e]]
    && after.rows == t.rows[id := Projection(state, |t.Stream(id)| + 1)]
    && after.outbox == t.outbox + [OutboxRow(id, e)]
  }

  /** Loading earlier never hurts: a save from a stale load either conflicts or is the save of a current one. */
  lemma SaveNextEffect<E, S>(clash: (S, S) -> bool, replay: seq<E> -> S, t: Tables<E, S>, id: nat, loaded: seq<E>, e: E)
    requires Consistent(t, replay) && loaded <= t.Stream(id)
    ensures
      var saved := SaveNext(clash, replay, t, id, loaded, e);
      && (saved.Some? <==> loaded == t.Stream(id) && !Collides(clash, t.rows, id, replay(loaded + [e])))
      && (saved.Some? ==>
            && Consistent(saved.value, replay)
            && Appended(t, saved.value, id, e, replay(loaded + [e])))
  {
    assert loaded == t.Stream(id)[..|loaded|];
    if |loaded| == |t.Stream(id)| {
      SaveKeepsConsistent(clash, t, replay, id, |loaded|, [e], Projection(replay(loaded + [e]), |loaded| + 1));
      assert OutboxRows(id, [e]) == [OutboxRow(id, e)];
    }
  }

  /** The rows of event_store, keyed as its unique index keys them, hold exactly these streams with sequence
      numbers 1..n and no gap. */
  ghost predicate Represents<E(!new)>(eventRows: map<(nat, nat), E>, streams: map<nat, seq<E>>)
  {
    && (forall id :: id in streams ==> streams[id] != [])
    && (forall id, n :: (id, n) in eventRows <==> id in streams && 1 <= n <= |streams[id]|)
    && (forall id, n :: (id, n) in eventRows ==> eventRows[(id, n)] == streams[id][n - 1])
  }

  datatype Savepoint<+E, +S> =
    Savepoint(eventRows: map<(nat, nat), E>, projection: map<nat, Projection<S>>, outbox: seq<OutboxRow<E>>)

  class EventStoreRepository<S, E(!new)> {
    const blank: S
    const reducer: (S, E) -> S
    const clash: (S, S) -> bool
    var eventRows: map<(nat, nat), E>
    var projection: map<nat, Projection<S>>
    var outbox: seq<OutboxRow<E>>

    /** The stored rows are these tables. */
    ghost predicate Shows(t: Tables<E, S>)
      reads this
    {
      && Represents(eventRows, t.streams)
      && projection == t.rows
      && outbox == t.outbox
    }

    constructor (blank: S, reducer: (S, E) -> S, clash: (S, S) -> bool)
      ensures this.blank == blank && this.reducer == reducer && this.clash == clash
      ensures Shows(Tables(map[], map[], []))
    {
      this.blank, this.reducer, this.clash := blank, reducer, clash;
      eventRows, projection, outbox := map[], map[], [];
    }

    /** What a transaction returns to when it aborts. */
    function Current(): (s: Savepoint<E, S>)
      reads this
      ensures s == Savepoint(eventRows, projection, outbox)
    {
      Savepoint(eventRows, projection, outbox)
    }

    method RollbackTo(s: Savepoint<E, S>)
      modifies this
      ensures Current() == s
    {
      eventRows, projection, outbox := s.eventRows, s.projection, s.outbox;
    }

    /** The two inserts of one event; false is the violation of the unique (aggregateId, sequence) index. */
    method InsertEvent(id: nat, sequence: nat, e: E, ghost streams: map<nat, seq<E>>) returns (ok: bool)
      requires Represents(eventRows, streams)
      requires 1 <= sequence <= (if id in streams then |streams[id]| else 0) + 1
      modifies `eventRows, `outbox
      ensures
        var stream := if id in streams then streams[id] else [];
        && ok == (sequence == |stream| + 1)
        && (ok ==> Represents(eventRows, streams[id := stream + [e]]) && outbox == old(outbox) + [OutboxRow(id, e)])
    {
      if (id, sequence) in eventRows {
        return false;
      }
      eventRows := eventRows[(id, sequence) := e];
      outbox := outbox + [OutboxRow(id, e)];
      ok := true;
    }

    /** Inserts the pending events one by one, each with its outbox row, then upserts the projection. On a
        unique violation the rows are left as they were reached: the caller's transaction must roll back. */
    method SaveWithinTransaction(aggregate: AggregateRoot<S, E>, ghost t: Tables<E, S>) returns (ok: bool)
      requires Shows(t)
      requires |aggregate.uncommitted| <= aggregate.version
      requires aggregate.version - |aggregate.uncommitted| <= |t.Stream(aggregate.id)|
      modifies this, aggregate
      ensures
        var saved := SaveTables(clash, t, aggregate.id, old(aggregate.version - |aggregate.uncommitted|),
                                old(aggregate.uncommitted), Projection(old(aggregate.state), old(aggregate.version)));
        ok == saved.Some? && (ok ==> Shows(saved.value) && aggregate.uncommitted == [])
      ensures aggregate.state == old(aggregate.state) && aggregate.version == old(aggregate.version)
      ensures ok ==> forall stored :: old(aggregate.Tracks(stored)) ==>
          aggregate.Tracks(stored + old(aggregate.uncommitted))
    {
      var uncommitted := aggregate.uncommitted;
      if |uncommitted| == 0 {
        forall stored | aggregate.Tracks(stored)
          ensures aggregate.Tracks(stored + uncommitted)
        {
          assert stored + uncommitted == stored;
        }
        return true;
      }
      var id := aggregate.id;
      var expectedVersion := aggregate.version - |uncommitted|;
      var sequence := expectedVersion;
      ghost var streams := t.streams;
      var i := 0;
      while i < |uncommitted|
        invariant 0 <= i <= |uncommitted| && sequence == expectedVersion + i
        invariant i > 0 ==> expectedVersion == |t.Stream(id)|
        invariant streams == if i == 0 then t.streams else t.streams[id := t.Stream(id) + uncommitted[..i]]
        invariant Represents(eventRows, streams)
        invariant outbox == t.outbox + OutboxRows(id, uncommitted[..i])
        invariant projection == t.rows && unchanged(aggregate)
      {
        sequence := sequence + 1;
        var inserted := InsertEvent(id, sequence, uncommitted[i], streams);
        if !inserted {
          return false;
        }
        assert t.Stream(id) + uncommitted[..i] + [uncommitted[i]] == t.Stream(id) + uncommitted[..i + 1];
        streams := t.streams[id := t.Stream(id) + uncommitted[..i + 1]];
        assert OutboxRows(id, uncommitted[..i + 1]) ==
            OutboxRows(id, uncommitted[..i]) + [OutboxRow(id, uncommitted[i])];
        i := i + 1;
      }
      assert uncommitted[..i] == uncommitted;
      if Collides(clash, projection, id, aggregate.state) {
        return false;
      }
      projection := projection[id := Projection(aggregate.state, aggregate.version)];
      assert forall stored :: old(aggregate.Tracks(stored)) ==> aggregate.Tracks(stored);
      aggregate.MarkEventsAsCommitted();
      ok := true;
    }

    /** The convenience wrapper: its own transaction, rolled back on a conflict. */
    method Save(aggregate: AggregateRoot<S, E>, ghost t: Tables<E, S>) returns (ok: bool)
      requires Shows(t)
      requires |aggregate.uncommitted| <= aggregate.version
      requires aggregate.version - |aggregate.uncommitted| <= |t.Stream(aggregate.id)|
      modifies this, aggregate
      ensures
        var saved := SaveTables(clash, t, aggregate.id, old(aggregate.version - |aggregate.uncommitted|),
                                old(aggregate.uncommitted), Projection(old(aggregate.state), old(aggregate.version)));
        ok == saved.Some? && Shows(if ok then saved.value else t)
    {
      var savepoint := Current();
      ok := SaveWithinTransaction(aggregate, t);
      if !ok {
        RollbackTo(savepoint);
      }
    }

    method LoadStream(id: nat, ghost t: Tables<E, S>) returns (history: seq<StoredEvent<E>>)
      requires Shows(t)
      ensures Contiguous(history, 0) && Payloads(history) == t.Stream(id)
    {
      history := [];
      while (id, |history| + 1) in eventRows
        invariant |history| <= |t.Stream(id)|
        invariant Contiguous(history, 0) && Payloads(history) == t.Stream(id)[..|history|]
        decreases |t.Stream(id)| - |history|
      {
        history := history + [StoredEvent(|history| + 1, eventRows[(id, |history| + 1)])];
      }
    }

    /** The aggregate rebuilt from its stream, or null when nothing is stored for the id. */
    method LoadAggregate(id: nat, ghost t: Tables<E, S>) returns (aggregate: AggregateRoot?<S, E>)
      requires Shows(t)
      ensures aggregate == null <==> t.Stream(id) == []
      ensures aggregate != null ==>
        && fresh(aggregate) && aggregate.id == id && aggregate.reducer == reducer && aggregate.blank == blank
        && aggregate.uncommitted == [] && aggregate.version == |t.Stream(id)|
        && aggregate.state == Fold(reducer, blank, t.Stream(id)) && aggregate.Tracks(t.Stream(id))
    {
      var history := LoadStream(id, t);
      if |history| == 0 {
        return null;
      }
      aggregate := new AggregateRoot(id, blank, reducer);
      aggregate.Hydrate(history);
      assert [] + Payloads(history) == Payloads(history);
    }
  }
}

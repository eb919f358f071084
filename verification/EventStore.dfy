/** The shared Postgres event store: a version check followed by one insert per event, with no transaction
    around them. */
module EventStore {
  import opened Basics
  import opened EventSourcing
  import opened Persistence

  function StreamIn<E>(streams: map<nat, seq<E>>, id: nat): seq<E> { if id in streams then streams[id] else [] }

  lemma InsertNext<E(!new)>(rows: map<(nat, nat), E>, streams: map<nat, seq<E>>, id: nat, stream: seq<E>, e: E)
    requires Represents(rows, streams) && stream == StreamIn(streams, id)
    ensures Represents(rows[(id, |stream| + 1) := e], streams[id := stream + [e]])
  {
  }

  class PostgresEventStore<E(!new)> {
    var rows: map<(nat, nat), E>

    constructor ()
      ensures rows == map[]
    {
      rows := map[];
    }

    /** SELECT MAX(sequence), 0 when there is no row. */
    method MaxSequence(id: nat) returns (max: nat)
      ensures max == 0 || (id, max) in rows
      ensures forall n :: (id, n) in rows ==> n <= max
    {
      max := 0;
      var keys := rows.Keys;
      while keys != {}
        invariant keys <= rows.Keys
        invariant max == 0 || (id, max) in rows
        invariant forall n :: (id, n) in rows ==> n <= max || (id, n) in keys
        decreases |keys|
      {
        var key: (nat, nat) :| key in keys;
        if key.0 == id && key.1 > max {
          max := key.1;
        }
        keys := keys - {key};
      }
    }

    /** With nobody interleaving: stale versions are refused, and the batch lands as a whole. */
    method Append(id: nat, events: seq<E>, expectedVersion: nat, ghost streams: map<nat, seq<E>>) returns (ok: bool)
      requires Represents(rows, streams)
      modifies this
      ensures ok <==> expectedVersion == |StreamIn(streams, id)|
      ensures !ok ==> rows == old(rows)
      ensures ok ==> Represents(rows, if events == [] then streams else streams[id := StreamIn(streams, id) + events])
    {
      var currentVersion := MaxSequence(id);
      ghost var stream := StreamIn(streams, id);
      assert currentVersion == |stream| by {
        if stream != [] { assert (id, |stream|) in rows; }
      }
      if currentVersion != expectedVersion {
        return false;
      }
      var sequence := expectedVersion;
      ghost var now := streams;
      for i := 0 to |events|
        invariant sequence == |stream| + i
        invariant now == if i == 0 then streams else streams[id := stream + events[..i]]
        invariant Represents(rows, now)
      {
        sequence := sequence + 1;
        InsertNext(rows, now, id, stream + events[..i], events[i]);
        rows := rows[(id, sequence) := events[i]];
        assert stream + events[..i] + [events[i]] == stream + events[..i + 1];
        now := streams[id := stream + events[..i + 1]];
      }
      assert events[..|events|] == events;
      ok := true;
    }

    /** The history after `fromSequence`, in order. */
    method LoadStream(id: nat, fromSequence: nat, ghost streams: map<nat, seq<E>>)
      returns (history: seq<StoredEvent<E>>)
      requires Represents(rows, streams)
      ensures Contiguous(history, fromSequence)
      ensures Payloads(history) ==
          if fromSequence <= |StreamIn(streams, id)| then StreamIn(streams, id)[fromSequence..] else []
    {
      history := [];
      var sequence := fromSequence + 1;
      ghost var stream := StreamIn(streams, id);
      while (id, sequence) in rows
        invariant sequence == fromSequence + |history| + 1
        invariant history != [] ==> sequence <= |stream| + 1
        invariant Contiguous(history, fromSequence)
        invariant forall i :: 0 <= i < |history| ==>
            fromSequence + i < |stream| && history[i].event == stream[fromSequence + i]
        decreases |stream| + 1 - sequence
      {
        history := history + [StoredEvent(sequence, rows[(id, sequence)])];
        sequence := sequence + 1;
      }
    }
  }

  /* ---- Interleaved appends ---- */

  /** An append call: its arguments, whether the version check passed, whether it is still running, and how
      many of its events have landed. */
  datatype Call<+E> = Call(id: nat, expectedVersion: nat, events: seq<E>, checked: bool, running: bool, landed: nat)

  /** A row remembers which call wrote it. */
  datatype Entry<+E> = Entry(call: nat, event: E)

  /** `streams` is a history variable: the entries of each aggregate in the order they landed. */
  datatype Store<+E> =
    Store(rows: map<(nat, nat), Entry<E>>, calls: map<nat, Call<E>>, streams: map<nat, seq<Entry<E>>>)

  datatype Action<+E> =
    | Begin(c: nat, id: nat, expectedVersion: nat, events: seq<E>)
    | CheckVersion(c: nat, max: nat)
    | InsertOne(c: nat)
    | Die(c: nat)

  ghost predicate IsMax<E>(rows: map<(nat, nat), E>, id: nat, max: nat)
  {
    && (max == 0 || (id, max) in rows)
    && (forall n :: (id, n) in rows ==> n <= max)
  }

  ghost function Act<E>(s: Store<E>, a: Action<E>): Store<E>
  {
    match a
    case Begin(c, id, expectedVersion, events) =>
      if c in s.calls then s else s.(calls := s.calls[c := Call.Call(id, expectedVersion, events, false, true, 0)])
    case CheckVersion(c, max) =>
      if c !in s.calls || s.calls[c].checked || !s.calls[c].running || !IsMax(s.rows, s.calls[c].id, max) then s
      else s.(calls := s.calls[c := s.calls[c].(checked := true, running := max == s.calls[c].expectedVersion)])
    case InsertOne(c) =>
      if c !in s.calls || !s.calls[c].checked || !s.calls[c].running || s.calls[c].landed >= |s.calls[c].events| then s
      else
        var call := s.calls[c];
        var key := (call.id, call.expectedVersion + call.landed + 1);
        if key in s.rows then s.(calls := s.calls[c := call.(running := false)])
        else
          var entry := Entry(c, call.events[call.landed]);
          Store(s.rows[key := entry], s.calls[c := call.(landed := call.landed + 1)],
                s.streams[call.id := StreamIn(s.streams, call.id) + [entry]])
    case Die(c) =>
      if c !in s.calls then s else s.(calls := s.calls[c := s.calls[c].(running := false)])
  }

  ghost function Interleaving<E>(actions: seq<Action<E>>): Store<E>
  {
    if actions == [] then Store(map[], map[], map[])
    else Act(Interleaving(actions[..|actions| - 1]), actions[|actions| - 1])
  }

  function KeyOf(id: nat, expectedVersion: nat, i: nat): (nat, nat) { (id, expectedVersion + i + 1) }

  /** The rows written by call c are exactly the first `landed` events of its batch, right after its expected
      version. */
  ghost predicate LandedPrefix<E>(rows: map<(nat, nat), Entry<E>>, c: nat, id: nat, expectedVersion: nat,
      events: seq<E>, landed: nat)
  {
    && landed <= |events|
    && (forall i :: 0 <= i < landed ==>
        KeyOf(id, expectedVersion, i) in rows && rows[KeyOf(id, expectedVersion, i)] == Entry(c, events[i]))
    && (forall key :: key in rows && rows[key].call == c ==>
        key.0 == id && expectedVersion < key.1 <= expectedVersion + landed)
  }

  ghost predicate CallSound<E(!new)>(s: Store<E>, c: nat)
    requires c in s.calls
  {
    var call := s.calls[c];
    && LandedPrefix(s.rows, c, call.id, call.expectedVersion, call.events, call.landed)
    && (!call.checked ==> call.landed == 0)
    && (call.checked && call.running ==> call.expectedVersion + call.landed <= |StreamIn(s.streams, call.id)|)
  }

  ghost predicate Sound<E(!new)>(s: Store<E>)
  {
    && Represents(s.rows, s.streams)
    && (forall key :: key in s.rows ==> s.rows[key].call in s.calls)
    && (forall c :: c in s.calls ==> CallSound(s, c))
  }

  /** Steps that touch no row keep the other calls as they are. */
  lemma UpdateKeepsSound<E(!new)>(s: Store<E>, c: nat, call: Call<E>)
    requires Sound(s)
    requires CallSound(s.(calls := s.calls[c := call]), c)
    ensures Sound(s.(calls := s.calls[c := call]))
  {
    var after := s.(calls := s.calls[c := call]);
    forall d | d in after.calls
      ensures CallSound(after, d)
    {
      if d != c { assert CallSound(s, d); }
    }
  }

  /** A row inserted for call c is the next of c's own batch and belongs to nobody else's. */
  lemma InsertKeepsPrefix<E(!new)>(rows: map<(nat, nat), Entry<E>>, key: (nat, nat), c: nat, e: E,
                                   d: nat, id: nat, expectedVersion: nat, events: seq<E>, landed: nat)
    requires LandedPrefix(rows, d, id, expectedVersion, events, landed) && key !in rows
    ensures d != c ==> LandedPrefix(rows[key := Entry(c, e)], d, id, expectedVersion, events, landed)
    ensures d == c && landed < |events| && key == KeyOf(id, expectedVersion, landed) && e == events[landed]
            ==> LandedPrefix(rows[key := Entry(c, e)], d, id, expectedVersion, events, landed + 1)
  {
  }

  ghost predicate Inserts<E>(s: Store<E>, c: nat)
  {
    && c in s.calls && s.calls[c].checked && s.calls[c].running && s.calls[c].landed < |s.calls[c].events|
    && KeyOf(s.calls[c].id, s.calls[c].expectedVersion, s.calls[c].landed) !in s.rows
  }

  lemma InsertKeepsCall<E(!new)>(s: Store<E>, c: nat, d: nat)
    requires Inserts(s, c) && d in s.calls && CallSound(s, c) && CallSound(s, d)
    ensures CallSound(Act(s, InsertOne(c)), d)
  {
    var call, other := s.calls[c], s.calls[d];
    var after := Act(s, InsertOne(c));
    var key := KeyOf(call.id, call.expectedVersion, call.landed);
    assert after.rows == s.rows[key := Entry(c, call.events[call.landed])];
    assert after.calls[d] == if d == c then call.(landed := call.landed + 1) else other;
    assert |StreamIn(after.streams, other.id)| ==
        |StreamIn(s.streams, other.id)| + (if other.id == call.id then 1 else 0);
    InsertKeepsPrefix(s.rows, key, c, call.events[call.landed], d, other.id, other.expectedVersion, other.events,
        other.landed);
  }

  lemma InsertKeepsSound<E(!new)>(s: Store<E>, c: nat)
    requires Sound(s) && Inserts(s, c)
    ensures Sound(Act(s, InsertOne(c)))
  {
    var call := s.calls[c];
    assert CallSound(s, c);
    InsertNext(s.rows, s.streams, call.id, StreamIn(s.streams, call.id), Entry(c, call.events[call.landed]));
    forall d | d in s.calls
      ensures CallSound(Act(s, InsertOne(c)), d)
    {
      InsertKeepsCall(s, c, d);
    }
  }

  lemma ActKeepsSound<E(!new)>(s: Store<E>, a: Action<E>)
    requires Sound(s)
    ensures Sound(Act(s, a))
  {
    var after := Act(s, a);
    if a.c in s.calls {
      var call, stream := s.calls[a.c], StreamIn(s.streams, s.calls[a.c].id);
      assert CallSound(s, a.c);
      if stream != [] { assert (call.id, |stream|) in s.rows; }
      if a.InsertOne? && Inserts(s, a.c) {
        InsertKeepsSound(s, a.c);
      } else if after != s {
        UpdateKeepsSound(s, a.c, after.calls[a.c]);
      }
    } else if a.Begin? {
      UpdateKeepsSound(s, a.c, after.calls[a.c]);
    }
  }

  /** Interleaved appends stay contiguous. Whatever the interleaving of version checks and single inserts, and
      whichever calls die midway, every stream holds sequences 1..n without a gap, and what each call landed is
      a contiguous prefix of its batch starting right after its expected version. */
  lemma {:induction false} AppendsStayContiguous<E(!new)>(actions: seq<Action<E>>)
    ensures Sound(Interleaving(actions))
    decreases |actions|
  {
    if actions != [] {
      AppendsStayContiguous(actions[..|actions| - 1]);
      ActKeepsSound(Interleaving(actions[..|actions| - 1]), actions[|actions| - 1]);
    }
  }

  /** Of two calls that expected the same version of the same aggregate, at most one lands anything. */
  lemma NoLostUpdate<E(!new)>(s: Store<E>, c: nat, d: nat)
    requires Sound(s) && c != d && c in s.calls && d in s.calls
    requires s.calls[c].id == s.calls[d].id && s.calls[c].expectedVersion == s.calls[d].expectedVersion
    ensures s.calls[c].landed == 0 || s.calls[d].landed == 0
  {
    assert CallSound(s, c) && CallSound(s, d);
    var key := KeyOf(s.calls[c].id, s.calls[c].expectedVersion, 0);
    if s.calls[c].landed > 0 { assert s.rows[key].call == c; }
    if s.calls[d].landed > 0 { assert s.rows[key].call == d; }
  }
}

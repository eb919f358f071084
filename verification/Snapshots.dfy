/** Loading an aggregate from a snapshot plus the tail of its history. */
module Snapshots {
  import opened Basics
  import opened EventSourcing

  datatype Snapshot<+S> = Snapshot(version: nat, state: S)

  /** The events with a sequence number beyond `version`. */
  function After<E>(events: seq<StoredEvent<E>>, version: nat): seq<StoredEvent<E>>
  {
    if events == [] then []
    else
      var rest := After(events[..|events| - 1], version);
      var last := events[|events| - 1];
      if last.sequence > version then rest + [last] else rest
  }

  datatype SnapshotStrategy = SnapshotStrategy(everyNEvents: nat) {

    /** A remainder by zero is not a number in the source, so it never equals 0. */
    predicate ShouldSnapshot(currentVersion: nat)
    {
      currentVersion > 0 && everyNEvents != 0 && currentVersion % everyNEvents == 0
    }

    function TailToReplay<E, S>(allEvents: seq<StoredEvent<E>>, snapshot: Option<Snapshot<S>>): seq<StoredEvent<E>>
    {
      match snapshot
      case None => allEvents
      case Some(s) => After(allEvents, s.version)
    }

    /** The version of the latest snapshot of a stream that grew one event at a time to `version`,
        when a snapshot was stored every time ShouldSnapshot held; 0 when there is none. */
    function LatestSnapshot(version: nat): nat
    {
      if version == 0 then 0
      else if ShouldSnapshot(version) then version
      else LatestSnapshot(version - 1)
    }
  }

  /** On a gap-free history the filter is a suffix. */
  lemma {:induction false} AfterIsSuffix<E>(events: seq<StoredEvent<E>>, version: nat)
    requires Contiguous(events, 0)
    ensures After(events, version) == if version <= |events| then events[version..] else []
    decreases |events|
  {
    if events != [] {
      var n := |events| - 1;
      AfterIsSuffix(events[..n], version);
      assert events[n].sequence == n + 1;
      if version <= n {
        assert After(events, version) == After(events[..n], version) + [events[n]];
        assert events[..n][version..] + [events[n]] == events[version..];
      } else {
        assert After(events, version) == After(events[..n], version) == [];
      }
    }
  }

  /** Snapshot refinement: from a snapshot that holds the fold of the first `version` events, replaying only
      the tail gives what a full replay gives. */
  lemma SnapshotRefinesReplay<S, E>(strategy: SnapshotStrategy, reducer: (S, E) -> S, blank: S,
                                    history: seq<StoredEvent<E>>, snapshot: Option<Snapshot<S>>)
    requires Contiguous(history, 0)
    requires snapshot.Some? ==>
      && snapshot.value.version <= |history|
      && snapshot.value.state == Fold(reducer, blank, Payloads(history[..snapshot.value.version]))
    ensures
      var start := if snapshot.Some? then snapshot.value.state else blank;
      Fold(reducer, start, Payloads(strategy.TailToReplay(history, snapshot))) ==
      Fold(reducer, blank, Payloads(history))
  {
    if snapshot.Some? {
      hide Fold, After;
      var v := snapshot.value.version;
      AfterIsSuffix(history, v);
      FoldConcat(reducer, blank, Payloads(history[..v]), Payloads(history[v..]));
      assert Payloads(history[..v]) + Payloads(history[v..]) == Payloads(history);
    }
  }

  lemma NonZeroMultiple(m: nat, j: int)
    ensures j >= 1 ==> m * j >= m
    ensures j <= -1 ==> m * j + m <= 0
  {
    if j >= 1 { assert m * j == m * (j - 1) + m && m * (j - 1) >= 0; }
    if j <= -1 { assert m * j == m * (j + 1) - m && m * (j + 1) <= 0; }
  }

  lemma NextMultiple(a: nat, m: nat)
    requires m != 0 && a % m == 0
    ensures (a + m) % m == 0
  {
    var b := a + m;
    var j := a / m + 1 - b / m;
    assert a == m * (a / m) && b == m * (b / m) + b % m;
    assert m * j == m * (a / m) + m - m * (b / m);
    NonZeroMultiple(m, j);
  }

  /** Snapshots are due at the positive multiples of everyNEvents, and never if that is 0. */
  lemma DueAtPositiveMultiples(strategy: SnapshotStrategy, version: nat)
    ensures strategy.ShouldSnapshot(version) <==>
              exists j: nat :: j > 0 && version > 0 && j * strategy.everyNEvents == version
  {
    var n := strategy.everyNEvents;
    if strategy.ShouldSnapshot(version) {
      var j: nat := version / n;
      assert j * n == version && j > 0;
    } else if j: nat :| j > 0 && version > 0 && j * n == version {
      assert n != 0;
      var q, r := version / n, version % n;
      assert version == n * q + r;
      assert n * (j - q) == r;
      NonZeroMultiple(n, j - q);
      assert false;
    }
  }

  /** The latest snapshot is at a multiple of everyNEvents, fewer than everyNEvents events back. */
  lemma {:induction false} LatestIsRecent(strategy: SnapshotStrategy, version: nat)
    requires strategy.everyNEvents != 0
    ensures
      var latest := strategy.LatestSnapshot(version);
      && latest <= version < latest + strategy.everyNEvents
      && latest % strategy.everyNEvents == 0
  {
    if version > 0 && !strategy.ShouldSnapshot(version) {
      LatestIsRecent(strategy, version - 1);
      var latest := strategy.LatestSnapshot(version - 1);
      if version == latest + strategy.everyNEvents {
        NextMultiple(latest, strategy.everyNEvents);
      }
    }
  }

  lemma {:induction false} NeverSnapshots(strategy: SnapshotStrategy, version: nat)
    requires strategy.everyNEvents == 0
    ensures strategy.LatestSnapshot(version) == 0
  {
    if version > 0 { NeverSnapshots(strategy, version - 1); }
  }

  /** The bound the strategy exists for. When snapshots are taken whenever ShouldSnapshot says so, the tail
      replayed on a load is always shorter than everyNEvents, for exactly those strategies with
      everyNEvents above 0: with 0 the tail is the whole history, however long. */
  lemma TailIsBounded<S, E>(strategy: SnapshotStrategy, history: seq<StoredEvent<E>>, state: S)
    requires Contiguous(history, 0)
    ensures
      var latest := strategy.LatestSnapshot(|history|);
      var tail := strategy.TailToReplay(history, Some(Snapshot(latest, state)));
      && (strategy.everyNEvents != 0 ==> |tail| < strategy.everyNEvents)
      && (strategy.everyNEvents == 0 ==> tail == history)
  {
    if strategy.everyNEvents != 0 {
      LatestIsRecent(strategy, |history|);
    } else {
      NeverSnapshots(strategy, |history|);
    }
    AfterIsSuffix(history, strategy.LatestSnapshot(|history|));
  }
}

/** The transactional outbox: rows wait until a relay pass has published and stamped them. */
module Outbox {
  import opened Basics

  datatype Row<+E> = Row(id: nat, aggregateId: nat, event: E, published: bool, publishAttempts: nat)

  /** How a publish ends: acknowledged, failed, or delivered with the acknowledgement lost. */
  datatype Delivery = Acknowledged | Rejected | AckLost

  predicate Selectable<E>(row: Row<E>, locked: set<nat>) { !row.published && row.id !in locked }

  /** The positions of the first `limit` rows that are unpublished and not locked by another relay. */
  function Batch<E>(rows: seq<Row<E>>, locked: set<nat>, limit: nat): (batch: seq<nat>)
    ensures |batch| <= limit
    ensures forall k :: 0 <= k < |batch| ==> batch[k] < |rows|
  {
    if rows == [] then []
    else
      var n := |rows| - 1;
      var rest := Batch(rows[..n], locked, limit);
      if Selectable(rows[n], locked) && |rest| < limit then rest + [n] else rest
  }

  predicate Ascending(batch: seq<nat>) { forall k, l :: 0 <= k < l < |batch| ==> batch[k] < batch[l] }

  /** A selectable row is left out only when the batch is full of older ones. */
  lemma {:induction false} LeftOutMeansFull<E>(rows: seq<Row<E>>, locked: set<nat>, limit: nat, i: nat)
    requires i < |rows| && Selectable(rows[i], locked) && i !in Batch(rows, locked, limit)
    ensures |Batch(rows, locked, limit)| == limit
    ensures forall k :: 0 <= k < limit ==> Batch(rows, locked, limit)[k] < i
    decreases |rows|
  {
    var n := |rows| - 1;
    var rest := Batch(rows[..n], locked, limit);
    if i < n {
      assert i !in rest;
      LeftOutMeansFull(rows[..n], locked, limit, i);
    } else {
      assert (rest + [n])[|rest|] == n;
    }
  }

  lemma {:induction false} BatchIsSelectable<E>(rows: seq<Row<E>>, locked: set<nat>, limit: nat)
    ensures Ascending(Batch(rows, locked, limit))
    ensures forall k :: 0 <= k < |Batch(rows, locked, limit)| ==>
        Selectable(rows[Batch(rows, locked, limit)[k]], locked)
    decreases |rows|
  {
    if rows != [] { BatchIsSelectable(rows[..|rows| - 1], locked, limit); }
  }

  /** A batch is in table order, every row in it was selectable, and no selectable row is passed over for a
      younger one or while there is room. */
  lemma {:induction false} BatchIsOldest<E>(rows: seq<Row<E>>, locked: set<nat>, limit: nat)
    ensures
      var batch := Batch(rows, locked, limit);
      && Ascending(batch)
      && (forall k :: 0 <= k < |batch| ==> Selectable(rows[batch[k]], locked))
      && (forall i: nat :: i < |rows| && Selectable(rows[i], locked) && i !in batch ==>
            |batch| == limit && forall k :: 0 <= k < limit ==> batch[k] < i)
  {
    BatchIsSelectable(rows, locked, limit);
    forall i: nat | i < |rows| && Selectable(rows[i], locked) && i !in Batch(rows, locked, limit)
      ensures |Batch(rows, locked, limit)| == limit && forall k :: 0 <= k < limit ==> Batch(rows, locked, limit)[k] < i
    {
      LeftOutMeansFull(rows, locked, limit, i);
    }
  }

  /** What handling a row leaves in the table: a stamp, or one more attempt. */
  function Handled<E>(row: Row<E>, delivery: Delivery): Row<E>
  {
    if delivery == Acknowledged then row.(published := true) else row.(publishAttempts := row.publishAttempts + 1)
  }

  /** The table after handling the first k rows of a batch. */
  function Relayed<E>(rows: seq<Row<E>>, batch: seq<nat>, deliveries: seq<Delivery>): seq<Row<E>>
    requires |batch| <= |deliveries| && forall k :: 0 <= k < |batch| ==> batch[k] < |rows|
    ensures |Relayed(rows, batch, deliveries)| == |rows|
  {
    if batch == [] then rows
    else
      var k := |batch| - 1;
      var before := Relayed(rows, batch[..k], deliveries);
      before[batch[k] := Handled(before[batch[k]], deliveries[k])]
  }

  /** The row ids that reached Kafka while handling a batch, in order. */
  function SentIds<E>(rows: seq<Row<E>>, batch: seq<nat>, deliveries: seq<Delivery>): seq<nat>
    requires |batch| <= |deliveries| && forall k :: 0 <= k < |batch| ==> batch[k] < |rows|
  {
    if batch == [] then []
    else
      var k := |batch| - 1;
      SentIds(rows, batch[..k], deliveries) + (if deliveries[k] == Rejected then [] else [rows[batch[k]].id])
  }

  /** The ids of the unpublished rows, oldest first. */
  function PendingIds<E>(rows: seq<Row<E>>): seq<nat>
  {
    if rows == [] then []
    else PendingIds(rows[..|rows| - 1]) + (if rows[|rows| - 1].published then [] else [rows[|rows| - 1].id])
  }

  /** Handling a batch changes only its rows, never what a row carries, and a stamp needs an acknowledgement. */
  lemma {:induction false} RelayedAt<E>(rows: seq<Row<E>>, batch: seq<nat>, deliveries: seq<Delivery>, i: nat)
    requires |batch| <= |deliveries| && i < |rows| && forall k :: 0 <= k < |batch| ==> batch[k] < |rows|
    ensures
      var after := Relayed(rows, batch, deliveries)[i];
      && after.id == rows[i].id && after.aggregateId == rows[i].aggregateId && after.event == rows[i].event
      && (after.published <==>
          || rows[i].published
          || exists k :: 0 <= k < |batch| && batch[k] == i && deliveries[k] == Acknowledged)
      && (i !in batch ==> after == rows[i])
      && (after.published && !rows[i].published ==> rows[i].id in SentIds(rows, batch, deliveries))
    decreases |batch|
  {
    if batch != [] {
      var k := |batch| - 1;
      RelayedAt(rows, batch[..k], deliveries, i);
      RelayedAt(rows, batch[..k], deliveries, batch[k]);
      if l :| 0 <= l < |batch[..k]| && batch[..k][l] == i && deliveries[l] == Acknowledged {
        assert batch[l] == i;
      }
    }
  }

  /** What became of row k of the batch: stamped if its publish was acknowledged, otherwise one attempt more, also
      when only the acknowledgement was lost. */
  ghost predicate Settled<E>(before: seq<Row<E>>, after: seq<Row<E>>, batch: seq<nat>, deliveries: seq<Delivery>,
      k: nat)
    requires k < |batch| <= |deliveries| && batch[k] < |before| <= |after|
  {
    var row, now := before[batch[k]], after[batch[k]];
    match deliveries[k]
    case Acknowledged => now == row.(published := true)
    case Rejected => now == row.(publishAttempts := row.publishAttempts + 1)
    case AckLost => now == row.(publishAttempts := row.publishAttempts + 1)
  }

  lemma {:induction false} BatchIsSettled<E>(rows: seq<Row<E>>, batch: seq<nat>, deliveries: seq<Delivery>, k: nat)
    requires k < |batch| <= |deliveries| && Ascending(batch) && forall l :: 0 <= l < |batch| ==> batch[l] < |rows|
    ensures Settled(rows, Relayed(rows, batch, deliveries), batch, deliveries, k)
    decreases |batch|
  {
    var n := |batch| - 1;
    if k < n {
      BatchIsSettled(rows, batch[..n], deliveries, k);
    } else {
      RelayedAt(rows, batch[..n], deliveries, batch[n]);
    }
  }

  /** A pass settles the rows of its batch and touches no other. */
  lemma PassSettles<E>(rows: seq<Row<E>>, locked: set<nat>, batchSize: nat, deliveries: seq<Delivery>)
    requires batchSize <= |deliveries|
    ensures
      var batch := Batch(rows, locked, batchSize);
      var after := Relayed(rows, batch, deliveries);
      && (forall i :: 0 <= i < |after| && i !in batch ==> after[i] == rows[i])
      && (forall k: nat :: k < |batch| ==> Settled(rows, after, batch, deliveries, k))
  {
    var batch := Batch(rows, locked, batchSize);
    hide Settled;
    BatchIsSelectable(rows, locked, batchSize);
    forall i: nat | i < |rows| && i !in batch ensures Relayed(rows, batch, deliveries)[i] == rows[i] {
      RelayedAt(rows, batch, deliveries, i);
    }
    forall k: nat | k < |batch| ensures Settled(rows, Relayed(rows, batch, deliveries), batch, deliveries, k) {
      BatchIsSettled(rows, batch, deliveries, k);
    }
  }

  class OutboxRepository<E> {
    var rows: seq<Row<E>>
    /** Ids of the rows handed to Kafka, in the order they reached it. */
    var sent: seq<nat>

    constructor ()
      ensures rows == [] && sent == []
    {
      rows, sent := [], [];
    }

    method WriteWithinTransaction(id: nat, aggregateId: nat, event: E)
      modifies this
      ensures rows == old(rows) + [Row(id, aggregateId, event, false, 0)] && sent == old(sent)
      ensures PendingIds(rows) == PendingIds(old(rows)) + [id]
    {
      rows := rows + [Row(id, aggregateId, event, false, 0)];
    }

    /** The locking select: the oldest unpublished rows nobody else holds. */
    method SelectBatch(batchSize: nat, locked: set<nat>) returns (batch: seq<nat>)
      ensures batch == Batch(rows, locked, batchSize)
    {
      batch := [];
      for i := 0 to |rows|
        invariant batch == Batch(rows[..i], locked, batchSize)
      {
        assert rows[..i + 1][..i] == rows[..i];
        if !rows[i].published && rows[i].id !in locked && |batch| < batchSize {
          batch := batch + [i];
        }
      }
      assert rows[..|rows|] == rows;
    }

    /** Publishes one row, then stamps it or counts the attempt. */
    method RelayRow(i: nat, delivery: Delivery)
      requires i < |rows|
      modifies this
      ensures rows == old(rows)[i := Handled(old(rows)[i], delivery)]
      ensures sent == old(sent) + (if delivery == Rejected then [] else [old(rows)[i].id])
    {
      if delivery != Rejected {
        sent := sent + [rows[i].id];
      }
      if delivery == Acknowledged {
        rows := rows[i := rows[i].(published := true)];
      } else {
        rows := rows[i := rows[i].(publishAttempts := rows[i].publishAttempts + 1)];
      }
    }

    /** One pass: select and lock a batch, then publish and stamp row by row. A failed row stays unpublished
        with one more attempt, and does not stop the rows after it. */
    method Relay(batchSize: nat, locked: set<nat>, deliveries: seq<Delivery>) returns (handled: nat)
      requires batchSize <= |deliveries|
      modifies this
      ensures
        var batch := Batch(old(rows), locked, batchSize);
        && handled == |batch|
        && rows == Relayed(old(rows), batch, deliveries)
        && sent == old(sent) + SentIds(old(rows), batch, deliveries)
        && |rows| == |old(rows)|
        && (forall i :: 0 <= i < |rows| && i !in batch ==> rows[i] == old(rows)[i])
        && (forall k: nat :: k < |batch| ==> Settled(old(rows), rows, batch, deliveries, k))
    {
      hide Settled;
      var batch := SelectBatch(batchSize, locked);
      ghost var before := rows;
      for k := 0 to |batch|
        invariant rows == Relayed(before, batch[..k], deliveries)
        invariant sent == old(sent) + SentIds(before, batch[..k], deliveries)
      {
        assert batch[..k + 1][..k] == batch[..k];
        RelayedAt(before, batch[..k], deliveries, batch[k]);
        RelayRow(batch[k], deliveries[k]);
      }
      assert batch[..|batch|] == batch;
      PassSettles(before, locked, batchSize, deliveries);
      handled := |batch|;
    }
  }

  /* ---- Concurrent relays and crashes ---- */

  /** A relay transaction holding its batch locked; `done` rows handled so far. */
  datatype RelayTx = RelayTx(batch: seq<nat>, done: nat, deliveries: seq<Delivery>)

  /** The committed table, everything that ever reached Kafka, and the open relay transactions. */
  datatype System<+E> = System(rows: seq<Row<E>>, sent: seq<nat>, relays: map<nat, RelayTx>)

  datatype Action<+E> =
    | Write(aggregateId: nat, event: E)
    | BeginRelay(tx: nat, batchSize: nat)
    | PublishRow(tx: nat, delivery: Delivery)
    | Commit(tx: nat)
    | Abort(tx: nat)

  /** The rows locked by open transactions; a row's id is its position, fixed when it is written. */
  function Locked<E>(s: System<E>): set<nat>
  {
    set tx, k | tx in s.relays && 0 <= k < |s.relays[tx].batch| :: s.relays[tx].batch[k]
  }

  predicate WellFormed<E>(s: System<E>)
  {
    && (forall i :: 0 <= i < |s.rows| ==> s.rows[i].id == i)
    && (forall tx :: tx in s.relays ==>
          && s.relays[tx].done <= |s.relays[tx].batch| && |s.relays[tx].deliveries| == s.relays[tx].done
          && forall k :: 0 <= k < |s.relays[tx].batch| ==> s.relays[tx].batch[k] < |s.rows|)
  }

  function Act<E>(s: System<E>, a: Action<E>): System<E>
    requires WellFormed(s)
  {
    match a
    case Write(aggregateId, event) => s.(rows := s.rows + [Row(|s.rows|, aggregateId, event, false, 0)])
    case BeginRelay(tx, batchSize) =>
      if tx in s.relays then s else s.(relays := s.relays[tx := RelayTx(Batch(s.rows, Locked(s), batchSize), 0, [])])
    case PublishRow(tx, delivery) =>
      if tx !in s.relays || s.relays[tx].done == |s.relays[tx].batch| then s
      else
        var relay := s.relays[tx];
        s.(sent := if delivery == Rejected then s.sent else s.sent + [s.rows[relay.batch[relay.done]].id],
           relays := s.relays[tx := RelayTx(relay.batch, relay.done + 1, relay.deliveries + [delivery])])
    case Commit(tx) =>
      if tx !in s.relays || s.relays[tx].done < |s.relays[tx].batch| then s
      else s.(rows := Relayed(s.rows, s.relays[tx].batch, s.relays[tx].deliveries), relays := s.relays - {tx})
    case Abort(tx) => s.(relays := s.relays - {tx})
  }

  predicate Backed(relay: RelayTx, sent: seq<nat>)
    requires relay.done <= |relay.batch| && |relay.deliveries| == relay.done
  {
    forall k :: 0 <= k < relay.done && relay.deliveries[k] == Acknowledged ==> relay.batch[k] in sent
  }

  predicate Disjoint(a: seq<nat>, b: seq<nat>)
  {
    forall k, l :: 0 <= k < |a| && 0 <= l < |b| ==> a[k] != b[l]
  }

  /** Rows of different open relays are different, stamps are backed by a send, and so is every
      acknowledgement inside an open transaction. */
  ghost predicate NoLoss<E>(s: System<E>)
  {
    && WellFormed(s)
    && (forall i :: 0 <= i < |s.rows| && s.rows[i].published ==> i in s.sent)
    && (forall tx :: tx in s.relays ==> Backed(s.relays[tx], s.sent))
    && (forall t, u :: t in s.relays && u in s.relays && t != u ==> Disjoint(s.relays[t].batch, s.relays[u].batch))
  }

  lemma BeginKeepsNoLoss<E>(s: System<E>, tx: nat, batchSize: nat)
    requires NoLoss(s)
    ensures NoLoss(Act(s, BeginRelay(tx, batchSize)))
  {
    if tx !in s.relays {
      var batch := Batch(s.rows, Locked(s), batchSize);
      BatchIsOldest(s.rows, Locked(s), batchSize);
      forall t | t in s.relays
        ensures Disjoint(s.relays[t].batch, batch) && Disjoint(batch, s.relays[t].batch)
      {
        forall k, l | 0 <= k < |s.relays[t].batch| && 0 <= l < |batch|
          ensures s.relays[t].batch[k] != batch[l]
        {
          assert s.relays[t].batch[k] in Locked(s);
          assert Selectable(s.rows[batch[l]], Locked(s));
        }
      }
    }
  }

  lemma CommitKeepsNoLoss<E>(s: System<E>, tx: nat)
    requires NoLoss(s)
    ensures NoLoss(Act(s, Commit(tx)))
  {
    if tx in s.relays && s.relays[tx].done == |s.relays[tx].batch| {
      var relay := s.relays[tx];
      var after := Act(s, Commit(tx));
      forall i | 0 <= i < |after.rows|
        ensures after.rows[i].id == i && (after.rows[i].published ==> i in s.sent)
      {
        RelayedAt(s.rows, relay.batch, relay.deliveries, i);
      }
    }
  }

  lemma PublishKeepsNoLoss<E>(s: System<E>, tx: nat, delivery: Delivery)
    requires NoLoss(s)
    ensures NoLoss(Act(s, PublishRow(tx, delivery)))
  {
    if tx in s.relays && s.relays[tx].done < |s.relays[tx].batch| {
      var after := Act(s, PublishRow(tx, delivery));
      assert forall i :: i in s.sent ==> i in after.sent;
      forall t | t in after.relays
        ensures Backed(after.relays[t], after.sent)
      {
        assert Backed(s.relays[t], s.sent);
      }
    }
  }

  lemma ActKeepsNoLoss<E>(s: System<E>, a: Action<E>)
    requires NoLoss(s)
    ensures NoLoss(Act(s, a))
  {
    match a {
      case Write(aggregateId, event) =>
      case BeginRelay(tx, batchSize) => BeginKeepsNoLoss(s, tx, batchSize);
      case PublishRow(tx, delivery) => PublishKeepsNoLoss(s, tx, delivery);
      case Commit(tx) => CommitKeepsNoLoss(s, tx);
      case Abort(tx) =>
    }
  }

  /** A committed row is never dropped or altered: it keeps its place, aggregate and event, and once stamped
      it stays stamped. */
  ghost predicate Keeps<E>(s: System<E>, later: System<E>)
  {
    && |s.rows| <= |later.rows| && s.sent <= later.sent
    && forall i :: 0 <= i < |s.rows| ==>
         && later.rows[i].event == s.rows[i].event && later.rows[i].aggregateId == s.rows[i].aggregateId
         && (s.rows[i].published ==> later.rows[i].published)
  }

  lemma ActKeepsRows<E>(s: System<E>, a: Action<E>)
    requires NoLoss(s)
    ensures Keeps(s, Act(s, a))
  {
    if a.Commit? && a.tx in s.relays && s.relays[a.tx].done == |s.relays[a.tx].batch| {
      forall i | 0 <= i < |s.rows| {
        RelayedAt(s.rows, s.relays[a.tx].batch, s.relays[a.tx].deliveries, i);
      }
    }
  }

  ghost predicate Reachable<E>(s: System<E>, actions: seq<Action<E>>, later: System<E>)
    decreases |actions|
  {
    if actions == [] then later == s
    else WellFormed(s) && Reachable(Act(s, actions[0]), actions[1..], later)
  }

  /** No loss, over every run with concurrent skip-locked relays, publish failures, lost acknowledgements and
      rolled-back transactions: a stamped row was sent at least once, open relays hold disjoint batches, and
      no row is ever dropped, altered or unstamped. */
  lemma {:induction false} OutboxLosesNothing<E>(s: System<E>, actions: seq<Action<E>>, later: System<E>)
    requires NoLoss(s) && Reachable(s, actions, later)
    ensures NoLoss(later) && Keeps(s, later)
    decreases |actions|
  {
    if actions != [] {
      ActKeepsNoLoss(s, actions[0]);
      ActKeepsRows(s, actions[0]);
      OutboxLosesNothing(Act(s, actions[0]), actions[1..], later);
    }
  }

  /* ---- Draining ---- */

  predicate AllAcknowledged(deliveries: seq<Delivery>) {
    forall k :: 0 <= k < |deliveries| ==> deliveries[k] == Acknowledged
  }

  function Acks(n: nat): (d: seq<Delivery>)
    ensures |d| == n && AllAcknowledged(d)
  {
    seq(n, _ => Acknowledged)
  }

  /** One failure-free pass of a single relay. */
  function Pass<E>(rows: seq<Row<E>>, batchSize: nat): seq<Row<E>>
  {
    Relayed(rows, Batch(rows, {}, batchSize), Acks(batchSize))
  }

  function Min(a: nat, b: nat): nat { if a < b then a else b }

  lemma {:induction false} RelayedPrefix<E>(rows: seq<Row<E>>, last: Row<E>, batch: seq<nat>, deliveries: seq<Delivery>)
    requires |batch| <= |deliveries| && forall k :: 0 <= k < |batch| ==> batch[k] < |rows|
    ensures Relayed(rows + [last], batch, deliveries) == Relayed(rows, batch, deliveries) + [last]
    ensures SentIds(rows + [last], batch, deliveries) == SentIds(rows, batch, deliveries)
    decreases |batch|
  {
    if batch != [] {
      RelayedPrefix(rows, last, batch[..|batch| - 1], deliveries);
    }
  }

  /** What one more row at the end changes about a pass. */
  lemma PassOverLast<E>(init: seq<Row<E>>, last: Row<E>, batchSize: nat)
    ensures
      var rows, rest := init + [last], Batch(init, {}, batchSize);
      var takes := !last.published && |rest| < batchSize;
      && |Batch(rows, {}, batchSize)| == |rest| + (if takes then 1 else 0)
      && SentIds(rows, Batch(rows, {}, batchSize), Acks(batchSize))
           == SentIds(init, rest, Acks(batchSize)) + (if takes then [last.id] else [])
      && PendingIds(Pass(rows, batchSize))
           == PendingIds(Pass(init, batchSize)) + (if last.published || takes then [] else [last.id])
  {
    var rows, rest, n := init + [last], Batch(init, {}, batchSize), |init|;
    assert rows[..n] == init && rows[n] == last;
    RelayedPrefix(init, last, rest, Acks(batchSize));
    var before := Pass(init, batchSize);
    var after := if !last.published && |rest| < batchSize then last.(published := true) else last;
    if !last.published && |rest| < batchSize {
      assert (rest + [n])[..|rest|] == rest;
      assert (before + [last])[n := after] == before + [after];
    }
    assert Pass(rows, batchSize) == before + [after];
    assert (before + [after])[..n] == before;
  }

  lemma SplitSnoc(pending: seq<nat>, id: nat, batchSize: nat)
    ensures
      var all, taken := pending + [id], Min(batchSize, |pending|);
      if taken < batchSize then
        all[..Min(batchSize, |all|)] == pending[..taken] + [id] && all[Min(batchSize, |all|)..] == pending[taken..] + []
      else
        all[..Min(batchSize, |all|)] == pending[..taken] + [] && all[Min(batchSize, |all|)..] == pending[taken..] + [id]
  {
  }

  /** A failure-free pass sends the oldest batchSize pending rows in order and leaves the rest pending. */
  lemma {:induction false} PassTakesOldest<E>(rows: seq<Row<E>>, batchSize: nat)
    ensures
      var pending, taken := PendingIds(rows), Min(batchSize, |PendingIds(rows)|);
      && |Batch(rows, {}, batchSize)| == taken
      && SentIds(rows, Batch(rows, {}, batchSize), Acks(batchSize)) == pending[..taken]
      && PendingIds(Pass(rows, batchSize)) == pending[taken..]
    decreases |rows|
  {
    if rows != [] {
      var n := |rows| - 1;
      PassTakesOldest(rows[..n], batchSize);
      assert rows == rows[..n] + [rows[n]];
      PassOverLast(rows[..n], rows[n], batchSize);
      if !rows[n].published {
        SplitSnoc(PendingIds(rows[..n]), rows[n].id, batchSize);
      }
    }
  }

  /** How many non-empty failure-free passes it takes to empty the outbox. */
  ghost function PassesToDrain<E>(rows: seq<Row<E>>, batchSize: nat): nat
    requires batchSize > 0
    decreases |PendingIds(rows)|
  {
    PassTakesOldest(rows, batchSize);
    if PendingIds(rows) == [] then 0 else 1 + PassesToDrain(Pass(rows, batchSize), batchSize)
  }

  /** n pending rows drain in exactly n / batchSize passes, rounded up: enough passes, and not one too many. */
  lemma {:induction false} DrainsInExactly<E>(rows: seq<Row<E>>, batchSize: nat)
    requires batchSize > 0
    ensures
      var n, passes := |PendingIds(rows)|, PassesToDrain(rows, batchSize);
      && n <= passes * batchSize
      && (passes > 0 ==> (passes - 1) * batchSize < n)
    decreases |PendingIds(rows)|
  {
    hide PendingIds, Pass, Batch, SentIds;
    PassTakesOldest(rows, batchSize);
    if PendingIds(rows) != [] {
      var next := Pass(rows, batchSize);
      var rest := PassesToDrain(next, batchSize);
      assert |PendingIds(next)| == |PendingIds(rows)| - Min(batchSize, |PendingIds(rows)|);
      DrainsInExactly(next, batchSize);
      assert (rest + 1) * batchSize == rest * batchSize + batchSize;
      if rest > 0 { assert rest * batchSize == (rest - 1) * batchSize + batchSize; }
    }
  }
}

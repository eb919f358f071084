/** When the relay keeps an aggregate's events in order. Rows are published under their aggregate's key so that the
    events of one aggregate stay ordered; whether they reach the topic in order depends on failures and on other
    relays. */
module OutboxOrder {
  import opened Outbox

  /** Row i was written before row r, for the same aggregate. */
  predicate Older<E>(rows: seq<Row<E>>, i: nat, r: nat)
  {
    i < r < |rows| && rows[i].aggregateId == rows[r].aggregateId
  }

  /** Everything older of the aggregate has reached the topic. */
  ghost predicate InTurn<E>(rows: seq<Row<E>>, sent: seq<nat>, r: nat)
  {
    forall i: nat :: Older(rows, i, r) ==> i in sent
  }

  /** No row reaches the topic before every older row of its aggregate has reached it. */
  ghost predicate Ordered<E>(rows: seq<Row<E>>, sent: seq<nat>)
  {
    forall n :: 0 <= n < |sent| ==> sent[n] < |rows| && InTurn(rows, sent[..n], sent[n])
  }

  lemma OrderedSnoc<E>(rows: seq<Row<E>>, sent: seq<nat>, r: nat)
    requires r < |rows|
    ensures Ordered(rows, sent + [r]) <==> Ordered(rows, sent) && InTurn(rows, sent, r)
  {
    var after := sent + [r];
    assert after[..|sent|] == sent && after[|sent|] == r;
    assert forall n :: 0 <= n < |sent| ==> after[..n] == sent[..n] && after[n] == sent[n];
  }

  lemma InTurnGrows<E>(rows: seq<Row<E>>, sent: seq<nat>, more: seq<nat>, r: nat)
    requires InTurn(rows, sent, r)
    ensures InTurn(rows, sent + more, r)
  {
    forall i: nat | Older(rows, i, r) ensures i in sent + more { assert i in sent; }
  }

  /* ---- One pass ---- */

  /** Row ids are positions, and a published row has been sent. */
  predicate Stamped<E>(rows: seq<Row<E>>, sent: seq<nat>)
  {
    forall i: nat :: i < |rows| ==> rows[i].id == i && (rows[i].published ==> i in sent)
  }

  predicate Delivered(batch: seq<nat>, deliveries: seq<Delivery>, i: nat)
    requires |batch| <= |deliveries|
  {
    exists j :: 0 <= j < |batch| && batch[j] == i && deliveries[j] != Rejected
  }

  lemma DeliveredBefore(batch: seq<nat>, deliveries: seq<Delivery>, i: nat)
    requires 0 < |batch| <= |deliveries|
    ensures
      var n := |batch| - 1;
      Delivered(batch, deliveries, i) <==>
        Delivered(batch[..n], deliveries, i) || (batch[n] == i && deliveries[n] != Rejected)
  {
    var n := |batch| - 1;
    if j :| 0 <= j < |batch| && batch[j] == i && deliveries[j] != Rejected {
      assert j < n ==> batch[..n][j] == i;
    }
    if j :| 0 <= j < n && batch[..n][j] == i && deliveries[j] != Rejected {
      assert batch[j] == i;
    }
  }

  lemma {:induction false} SentAreDelivered<E>(rows: seq<Row<E>>, batch: seq<nat>, deliveries: seq<Delivery>, i: nat)
    requires |batch| <= |deliveries|
    requires forall k :: 0 <= k < |batch| ==> batch[k] < |rows| && rows[batch[k]].id == batch[k]
    ensures i in SentIds(rows, batch, deliveries) <==> Delivered(batch, deliveries, i)
    decreases |batch|
  {
    if batch == [] {
      assert !Delivered([], deliveries, i);
    } else {
      hide Delivered;
      SentAreDelivered(rows, batch[..|batch| - 1], deliveries, i);
      DeliveredBefore(batch, deliveries, i);
    }
  }

  /** If the pass delivers row k of its batch, then in its turn. */
  ghost predicate TurnAt<E>(rows: seq<Row<E>>, sent: seq<nat>, batch: seq<nat>, deliveries: seq<Delivery>, k: nat)
    requires k < |batch| <= |deliveries|
    requires forall b :: 0 <= b < |batch| ==> batch[b] < |rows|
  {
    deliveries[k] != Rejected ==> InTurn(rows, sent + SentIds(rows, batch[..k], deliveries), batch[k])
  }

  lemma LastTurn<E>(rows: seq<Row<E>>, sent: seq<nat>, batch: seq<nat>, deliveries: seq<Delivery>, n: nat)
    requires n + 1 == |batch| <= |deliveries| && forall b :: 0 <= b < |batch| ==> batch[b] < |rows|
    requires rows[batch[n]].id == batch[n]
    ensures Ordered(rows, sent + SentIds(rows, batch, deliveries)) <==>
              Ordered(rows, sent + SentIds(rows, batch[..n], deliveries)) && TurnAt(rows, sent, batch, deliveries, n)
  {
    hide Ordered, InTurn;
    var before := SentIds(rows, batch[..n], deliveries);
    if deliveries[n] != Rejected {
      assert SentIds(rows, batch, deliveries) == before + [batch[n]];
      assert sent + (before + [batch[n]]) == sent + before + [batch[n]];
      OrderedSnoc(rows, sent + before, batch[n]);
    } else {
      assert SentIds(rows, batch, deliveries) == before;
    }
  }

  /** A pass keeps order exactly if each row it delivers is delivered in its turn. */
  lemma {:induction false} PassByTurns<E>(rows: seq<Row<E>>, sent: seq<nat>, batch: seq<nat>, deliveries: seq<Delivery>)
    requires |batch| <= |deliveries|
    requires forall k :: 0 <= k < |batch| ==> batch[k] < |rows| && rows[batch[k]].id == batch[k]
    ensures Ordered(rows, sent + SentIds(rows, batch, deliveries)) <==>
              Ordered(rows, sent) && forall k: nat :: k < |batch| ==> TurnAt(rows, sent, batch, deliveries, k)
    decreases |batch|
  {
    hide Ordered, InTurn;
    if batch == [] {
      assert sent + [] == sent;
    } else {
      var n := |batch| - 1;
      var rest := batch[..n];
      PassByTurns(rows, sent, rest, deliveries);
      forall k: nat | k < n
        ensures TurnAt(rows, sent, rest, deliveries, k) <==> TurnAt(rows, sent, batch, deliveries, k)
      {
        assert rest[..k] == batch[..k];
      }
      LastTurn(rows, sent, batch, deliveries, n);
    }
  }

  /** A delivered row overtakes an older row of its aggregate that has never been sent, because that row was rejected
      or is locked by another relay. */
  predicate Overtakes<E>(rows: seq<Row<E>>, sent: seq<nat>, locked: set<nat>, batch: seq<nat>,
      deliveries: seq<Delivery>, k: nat, i: nat)
    requires k < |batch| <= |deliveries|
  {
    && deliveries[k] != Rejected && Older(rows, i, batch[k]) && i !in sent
    && (i in locked || exists j :: 0 <= j < |batch| && batch[j] == i && deliveries[j] == Rejected)
  }

  ghost predicate OvertakesNothing<E>(rows: seq<Row<E>>, sent: seq<nat>, locked: set<nat>, batch: seq<nat>,
                                      deliveries: seq<Delivery>, k: nat)
    requires k < |batch| <= |deliveries|
  {
    forall i: nat :: !Overtakes(rows, sent, locked, batch, deliveries, k, i)
  }

  /** An older row of the aggregate is in the batch before, or locked elsewhere, or sent already: a batch is the
      oldest rows that are free. */
  lemma OlderIsAccountedFor<E>(rows: seq<Row<E>>, sent: seq<nat>, locked: set<nat>, limit: nat, k: nat, i: nat)
    requires Stamped(rows, sent) && k < |Batch(rows, locked, limit)| && Older(rows, i, Batch(rows, locked, limit)[k])
    requires i !in sent && i !in locked
    ensures exists j :: 0 <= j < k && Batch(rows, locked, limit)[j] == i
  {
    var batch := Batch(rows, locked, limit);
    BatchIsOldest(rows, locked, limit);
    assert Selectable(rows[i], locked) && i in batch;
  }

  lemma TurnsUnlessOvertaking<E>(rows: seq<Row<E>>, sent: seq<nat>, locked: set<nat>, limit: nat,
      deliveries: seq<Delivery>, k: nat)
    requires Stamped(rows, sent) && k < |Batch(rows, locked, limit)| <= |deliveries| && deliveries[k] != Rejected
    requires forall b :: 0 <= b < |Batch(rows, locked, limit)| ==> Batch(rows, locked, limit)[b] !in locked
    ensures
      var batch := Batch(rows, locked, limit);
      InTurn(rows, sent + SentIds(rows, batch[..k], deliveries), batch[k]) <==>
        OvertakesNothing(rows, sent, locked, batch, deliveries, k)
  {
    var batch := Batch(rows, locked, limit);
    BatchIsOldest(rows, locked, limit);
    var log := sent + SentIds(rows, batch[..k], deliveries);
    forall i: nat | Older(rows, i, batch[k]) && i !in sent
      ensures i in log <==> !Overtakes(rows, sent, locked, batch, deliveries, k, i)
    {
      SentAreDelivered(rows, batch[..k], deliveries, i);
      if i !in locked {
        OlderIsAccountedFor(rows, sent, locked, limit, k, i);
        var j :| 0 <= j < k && batch[j] == i;
        assert batch[..k][j] == i;
        assert forall b :: 0 <= b < |batch| && batch[b] == i ==> b == j;
      } else {
        assert !Delivered(batch[..k], deliveries, i);
      }
    }
  }

  lemma RejectedOvertakeNothing<E>(rows: seq<Row<E>>, sent: seq<nat>, locked: set<nat>, batch: seq<nat>,
      deliveries: seq<Delivery>, k: nat)
    requires k < |batch| <= |deliveries| && deliveries[k] == Rejected
    ensures OvertakesNothing(rows, sent, locked, batch, deliveries, k)
  {
  }

  /** The per-pass condition: a pass keeps order if and only if it delivers no row of an aggregate with an older,
      never sent row of the same aggregate that was rejected in the pass or is locked by another relay. */
  lemma PassKeepsOrderExactly<E>(rows: seq<Row<E>>, sent: seq<nat>, locked: set<nat>, limit: nat,
      deliveries: seq<Delivery>)
    requires Stamped(rows, sent) && Ordered(rows, sent) && |Batch(rows, locked, limit)| <= |deliveries|
    ensures
      var batch := Batch(rows, locked, limit);
      Ordered(rows, sent + SentIds(rows, batch, deliveries)) <==>
        forall k: nat :: k < |batch| ==> OvertakesNothing(rows, sent, locked, batch, deliveries, k)
  {
    hide Ordered, InTurn, Overtakes, OvertakesNothing;
    var batch := Batch(rows, locked, limit);
    BatchIsOldest(rows, locked, limit);
    PassByTurns(rows, sent, batch, deliveries);
    assert forall b :: 0 <= b < |batch| ==> Selectable(rows[batch[b]], locked) && rows[batch[b]].id == batch[b];
    forall k: nat | k < |batch|
      ensures TurnAt(rows, sent, batch, deliveries, k) <==> OvertakesNothing(rows, sent, locked, batch, deliveries, k)
    {
      if deliveries[k] != Rejected { TurnsUnlessOvertaking(rows, sent, locked, limit, deliveries, k); }
      else { RejectedOvertakeNothing(rows, sent, locked, batch, deliveries, k); }
    }
  }

  /* ---- Before the pass ---- */

  lemma {:induction false} RejectedSendNothing<E>(rows: seq<Row<E>>, batch: seq<nat>, deliveries: seq<Delivery>)
    requires |batch| <= |deliveries|
    requires forall k :: 0 <= k < |batch| ==> batch[k] < |rows| && deliveries[k] == Rejected
    ensures SentIds(rows, batch, deliveries) == []
    decreases |batch|
  {
    if batch != [] { RejectedSendNothing(rows, batch[..|batch| - 1], deliveries); }
  }

  /** Only the publish of row k succeeds. */
  function OnlyDelivering(n: nat, k: nat): seq<Delivery> { seq(n, j => if j == k then Acknowledged else Rejected) }

  lemma TurnsKeepOrder<E>(rows: seq<Row<E>>, sent: seq<nat>, batch: seq<nat>, deliveries: seq<Delivery>)
    requires Ordered(rows, sent) && |batch| <= |deliveries|
    requires forall k :: 0 <= k < |batch| ==> batch[k] < |rows| && rows[batch[k]].id == batch[k]
    requires forall k :: 0 <= k < |batch| ==> InTurn(rows, sent, batch[k])
    ensures Ordered(rows, sent + SentIds(rows, batch, deliveries))
  {
    PassByTurns(rows, sent, batch, deliveries);
    forall k: nat | k < |batch| ensures TurnAt(rows, sent, batch, deliveries, k) {
      InTurnGrows(rows, sent, SentIds(rows, batch[..k], deliveries), batch[k]);
    }
  }

  lemma OutOfTurnBreaksOrder<E>(rows: seq<Row<E>>, sent: seq<nat>, batch: seq<nat>, k: nat)
    requires k < |batch| && forall b :: 0 <= b < |batch| ==> batch[b] < |rows| && rows[batch[b]].id == batch[b]
    requires !InTurn(rows, sent, batch[k])
    ensures !Ordered(rows, sent + SentIds(rows, batch, OnlyDelivering(|batch|, k)))
  {
    hide Ordered, InTurn;
    var deliveries := OnlyDelivering(|batch|, k);
    PassByTurns(rows, sent, batch, deliveries);
    RejectedSendNothing(rows, batch[..k], deliveries);
    assert sent + SentIds(rows, batch[..k], deliveries) == sent;
    assert !TurnAt(rows, sent, batch, deliveries, k);
  }

  /** The condition that can be checked before the pass: order is kept whatever publishes fail if and only if every
      row of the batch is the oldest row of its aggregate that has not been sent. */
  lemma BatchKeepsOrderExactly<E>(rows: seq<Row<E>>, sent: seq<nat>, batch: seq<nat>)
    requires Ordered(rows, sent) && forall k :: 0 <= k < |batch| ==> batch[k] < |rows| && rows[batch[k]].id == batch[k]
    ensures (forall deliveries :: |deliveries| == |batch| ==> Ordered(rows, sent + SentIds(rows, batch, deliveries)))
              <==> forall k :: 0 <= k < |batch| ==> InTurn(rows, sent, batch[k])
  {
    if forall k :: 0 <= k < |batch| ==> InTurn(rows, sent, batch[k]) {
      forall deliveries | |deliveries| == |batch| ensures Ordered(rows, sent + SentIds(rows, batch, deliveries)) {
        TurnsKeepOrder(rows, sent, batch, deliveries);
      }
    } else {
      var k :| 0 <= k < |batch| && !InTurn(rows, sent, batch[k]);
      OutOfTurnBreaksOrder(rows, sent, batch, k);
      assert |OnlyDelivering(|batch|, k)| == |batch|;
    }
  }

  /** With no other relay and no lost acknowledgement before, that says: no two rows of the batch share an
      aggregate. */
  lemma UnlockedBatchKeepsOrderExactly<E>(rows: seq<Row<E>>, sent: seq<nat>, limit: nat)
    requires Stamped(rows, sent) && Ordered(rows, sent)
    requires forall i: nat :: i < |rows| && i in sent ==> rows[i].published
    ensures
      var batch := Batch(rows, {}, limit);
      (forall deliveries :: |deliveries| == |batch| ==> Ordered(rows, sent + SentIds(rows, batch, deliveries)))
        <==> forall j, k :: 0 <= j < k < |batch| ==> rows[batch[j]].aggregateId != rows[batch[k]].aggregateId
  {
    var batch := Batch(rows, {}, limit);
    BatchIsOldest(rows, {}, limit);
    BatchKeepsOrderExactly(rows, sent, batch);
    forall j, k | 0 <= j < k < |batch| && rows[batch[j]].aggregateId == rows[batch[k]].aggregateId
      ensures !InTurn(rows, sent, batch[k])
    {
      assert Older(rows, batch[j], batch[k]) && Selectable(rows[batch[j]], {});
    }
    forall k | 0 <= k < |batch| && !InTurn(rows, sent, batch[k])
      ensures exists j :: 0 <= j < k && rows[batch[j]].aggregateId == rows[batch[k]].aggregateId
    {
      var i: nat :| Older(rows, i, batch[k]) && i !in sent;
      OlderIsAccountedFor(rows, sent, {}, limit, k, i);
    }
  }

  /* ---- Several relays ---- */

  ghost predicate InOrder<E>(s: System<E>) { Ordered(s.rows, s.sent) }

  /** The row a publish step would send. */
  predicate Sends<E>(s: System<E>, a: Action<E>)
    requires WellFormed(s)
  {
    a.PublishRow? && a.tx in s.relays && s.relays[a.tx].done < |s.relays[a.tx].batch| && a.delivery != Rejected
  }

  ghost predicate TakesItsTurn<E>(s: System<E>, a: Action<E>)
    requires WellFormed(s)
  {
    Sends(s, a) ==> InTurn(s.rows, s.sent, s.relays[a.tx].batch[s.relays[a.tx].done])
  }

  /** Rows keep their aggregates, and new rows are younger than every row sent. */
  lemma RowsKeepTurns<E>(before: seq<Row<E>>, after: seq<Row<E>>, sent: seq<nat>, r: nat)
    requires |before| <= |after| && r < |before|
    requires forall i :: 0 <= i < |before| ==> after[i].aggregateId == before[i].aggregateId
    ensures InTurn(after, sent, r) <==> InTurn(before, sent, r)
  {
    assert forall i: nat :: Older(after, i, r) <==> Older(before, i, r);
  }

  lemma RowsKeepOrder<E>(before: seq<Row<E>>, after: seq<Row<E>>, sent: seq<nat>)
    requires |before| <= |after| && forall n :: 0 <= n < |sent| ==> sent[n] < |before|
    requires forall i :: 0 <= i < |before| ==> after[i].aggregateId == before[i].aggregateId
    ensures Ordered(after, sent) <==> Ordered(before, sent)
  {
    forall n | 0 <= n < |sent| ensures InTurn(after, sent[..n], sent[n]) <==> InTurn(before, sent[..n], sent[n]) {
      RowsKeepTurns(before, after, sent[..n], sent[n]);
    }
  }

  predicate InRange<E>(s: System<E>) { forall n :: 0 <= n < |s.sent| ==> s.sent[n] < |s.rows| }

  /** A step keeps order exactly if what it sends, if anything, is sent in its turn. */
  lemma StepKeepsOrderExactly<E>(s: System<E>, a: Action<E>)
    requires NoLoss(s) && InRange(s)
    ensures InRange(Act(s, a))
    ensures InOrder(Act(s, a)) <==> InOrder(s) && TakesItsTurn(s, a)
  {
    var after := Act(s, a);
    if Sends(s, a) {
      OrderedSnoc(s.rows, s.sent, s.relays[a.tx].batch[s.relays[a.tx].done]);
    } else {
      ActKeepsRows(s, a);
      assert after.sent == s.sent;
      RowsKeepOrder(s.rows, after.rows, s.sent);
    }
  }

  /** Every send of the run takes its turn. */
  ghost predicate AllTakeTurns<E>(s: System<E>, actions: seq<Action<E>>)
    decreases |actions|
  {
    actions == [] || (WellFormed(s) && TakesItsTurn(s, actions[0]) && AllTakeTurns(Act(s, actions[0]), actions[1..]))
  }

  /** The order of a run's topic, send by send: what the conditions on relays below are reduced to. */
  lemma {:induction false} RunKeepsOrderExactly<E>(s: System<E>, actions: seq<Action<E>>, later: System<E>)
    requires NoLoss(s) && InRange(s) && Reachable(s, actions, later)
    ensures InOrder(later) <==> InOrder(s) && AllTakeTurns(s, actions)
    decreases |actions|
  {
    if actions != [] {
      ActKeepsNoLoss(s, actions[0]);
      StepKeepsOrderExactly(s, actions[0]);
      RunKeepsOrderExactly(Act(s, actions[0]), actions[1..], later);
    }
  }

  /** Every row still to be sent by an open relay is the oldest unsent row of its aggregate. */
  ghost predicate Safe<E>(s: System<E>)
    requires WellFormed(s)
  {
    forall tx, k :: tx in s.relays && s.relays[tx].done <= k < |s.relays[tx].batch| ==>
      InTurn(s.rows, s.sent, s.relays[tx].batch[k])
  }

  predicate StartsNoRelay<E>(actions: seq<Action<E>>) { forall i :: 0 <= i < |actions| ==> !actions[i].BeginRelay? }

  lemma StepKeepsSafe<E>(s: System<E>, a: Action<E>)
    requires NoLoss(s) && Safe(s) && !a.BeginRelay?
    ensures WellFormed(Act(s, a)) && Safe(Act(s, a)) && TakesItsTurn(s, a)
  {
    var after := Act(s, a);
    ActKeepsNoLoss(s, a);
    ActKeepsRows(s, a);
    forall tx, k | tx in after.relays && after.relays[tx].done <= k < |after.relays[tx].batch|
      ensures InTurn(after.rows, after.sent, after.relays[tx].batch[k])
    {
      var r := s.relays[tx].batch[k];
      assert InTurn(s.rows, s.sent, r);
      InTurnGrows(s.rows, s.sent, after.sent[|s.sent|..], r);
      assert after.sent == s.sent + after.sent[|s.sent|..];
      RowsKeepTurns(s.rows, after.rows, after.sent, r);
    }
  }

  lemma {:induction false} SafeRunsTakeTurns<E>(s: System<E>, actions: seq<Action<E>>)
    requires NoLoss(s) && Safe(s) && StartsNoRelay(actions)
    ensures AllTakeTurns(s, actions)
    decreases |actions|
  {
    if actions != [] {
      StepKeepsSafe(s, actions[0]);
      ActKeepsNoLoss(s, actions[0]);
      SafeRunsTakeTurns(Act(s, actions[0]), actions[1..]);
    }
  }

  /** A relay can be made to send its row k next: every publish before it fails. */
  lemma {:induction false} CanSendNext<E>(s: System<E>, tx: nat, k: nat)
    returns (actions: seq<Action<E>>, later: System<E>)
    requires NoLoss(s) && tx in s.relays && s.relays[tx].done <= k < |s.relays[tx].batch|
    ensures StartsNoRelay(actions) && Reachable(s, actions, later)
    ensures later.rows == s.rows && later.sent == s.sent + [s.relays[tx].batch[k]]
    decreases k - s.relays[tx].done
  {
    var a := PublishRow(tx, if s.relays[tx].done < k then Rejected else Acknowledged);
    var after := Act(s, a);
    ActKeepsNoLoss(s, a);
    if s.relays[tx].done < k {
      var more, end := CanSendNext(after, tx, k);
      actions, later := [a] + more, end;
      assert actions[1..] == more;
    } else {
      actions, later := [a], after;
      assert actions[1..] == [];
    }
  }

  /** If some open relay holds a row that is not in turn, its publishes can be made to send that row next. */
  lemma UnsafeCanReorder<E>(s: System<E>) returns (actions: seq<Action<E>>, later: System<E>)
    requires NoLoss(s) && InRange(s) && InOrder(s) && !Safe(s)
    ensures StartsNoRelay(actions) && Reachable(s, actions, later) && !InOrder(later)
  {
    var tx, k :| tx in s.relays && s.relays[tx].done <= k < |s.relays[tx].batch|
                 && !InTurn(s.rows, s.sent, s.relays[tx].batch[k]);
    actions, later := CanSendNext(s, tx, k);
    OrderedSnoc(s.rows, s.sent, s.relays[tx].batch[k]);
  }

  /** The condition on the open relays: whatever they, crashes and new rows do from here on, order is kept if and only
      if every row they have still to send is the oldest unsent row of its aggregate. */
  lemma OpenRelaysKeepOrderExactly<E>(s: System<E>)
    requires NoLoss(s) && InRange(s) && InOrder(s)
    ensures Safe(s) <==>
              forall actions, later :: StartsNoRelay(actions) && Reachable(s, actions, later) ==> InOrder(later)
  {
    if Safe(s) {
      forall actions, later | StartsNoRelay(actions) && Reachable(s, actions, later) ensures InOrder(later) {
        SafeRunsTakeTurns(s, actions);
        RunKeepsOrderExactly(s, actions, later);
      }
    } else {
      var actions, later := UnsafeCanReorder(s);
    }
  }

  /** Starting a relay is safe exactly if its batch is: each row the oldest unsent one of its aggregate. */
  lemma NewRelayIsSafeExactly<E>(s: System<E>, tx: nat, batchSize: nat)
    requires NoLoss(s) && tx !in s.relays
    ensures
      var batch := Batch(s.rows, Locked(s), batchSize);
      && WellFormed(Act(s, BeginRelay(tx, batchSize)))
      && (Safe(Act(s, BeginRelay(tx, batchSize))) <==>
            Safe(s) && forall k :: 0 <= k < |batch| ==> InTurn(s.rows, s.sent, batch[k]))
  {
    var after := Act(s, BeginRelay(tx, batchSize));
    ActKeepsNoLoss(s, BeginRelay(tx, batchSize));
    assert after.relays[tx] == RelayTx(Batch(s.rows, Locked(s), batchSize), 0, []);
    if Safe(after) {
      forall t, k | t in s.relays && s.relays[t].done <= k < |s.relays[t].batch|
        ensures InTurn(s.rows, s.sent, s.relays[t].batch[k])
      {
        assert t in after.relays && after.relays[t] == s.relays[t];
        assert InTurn(after.rows, after.sent, after.relays[t].batch[k]);
      }
      forall k | 0 <= k < |after.relays[tx].batch| ensures InTurn(s.rows, s.sent, after.relays[tx].batch[k]) {}
    }
  }

  /** Every relay of the run starts with a batch in which each row is the oldest unsent one of its aggregate. */
  ghost predicate StartsSafely<E>(s: System<E>, actions: seq<Action<E>>)
    decreases |actions|
  {
    || actions == []
    || (&& WellFormed(s) && WellFormed(Act(s, actions[0]))
        && (actions[0].BeginRelay? ==> Safe(Act(s, actions[0])))
        && StartsSafely(Act(s, actions[0]), actions[1..]))
  }

  /** Whole runs, checked only when a relay starts: if every relay starts safely, order is kept whatever publishes
      fail, acknowledgements are lost or relays are rolled back, for any number of concurrent relays. */
  lemma {:induction false} SafelyStartedRunsKeepOrder<E>(s: System<E>, actions: seq<Action<E>>, later: System<E>)
    requires NoLoss(s) && InRange(s) && InOrder(s) && Safe(s)
    requires StartsSafely(s, actions) && Reachable(s, actions, later)
    ensures InOrder(later)
    decreases |actions|
  {
    if actions != [] {
      if !actions[0].BeginRelay? { StepKeepsSafe(s, actions[0]); }
      ActKeepsNoLoss(s, actions[0]);
      StepKeepsOrderExactly(s, actions[0]);
      SafelyStartedRunsKeepOrder(Act(s, actions[0]), actions[1..], later);
    }
  }

  /* ---- One relay, no failed publish ---- */

  /** Relays run one at a time and no publish fails; acknowledgements may be lost and relays may be rolled back. */
  ghost predicate SingleFile<E>(s: System<E>, actions: seq<Action<E>>)
    decreases |actions|
  {
    || actions == []
    || (&& WellFormed(s)
        && (actions[0].BeginRelay? ==> s.relays == map[])
        && (actions[0].PublishRow? ==> actions[0].delivery != Rejected)
        && SingleFile(Act(s, actions[0]), actions[1..]))
  }

  /** Row i has been sent, or comes before position k in what relay tx has still to send. */
  predicate Queued<E>(s: System<E>, tx: nat, k: nat, i: nat)
    requires WellFormed(s) && tx in s.relays && k < |s.relays[tx].batch|
  {
    i in s.sent || exists j :: s.relays[tx].done <= j < k && s.relays[tx].batch[j] == i
  }

  /** At most one relay is open, and whatever is older than a row it has still to send is queued before that row. */
  ghost predicate InFile<E>(s: System<E>)
    requires WellFormed(s)
  {
    && (forall t, u :: t in s.relays && u in s.relays ==> t == u)
    && forall tx, k: nat, i: nat ::
         tx in s.relays && s.relays[tx].done <= k < |s.relays[tx].batch| && Older(s.rows, i, s.relays[tx].batch[k]) ==>
           Queued(s, tx, k, i)
  }

  lemma BeginIsInFile<E>(s: System<E>, tx: nat, batchSize: nat)
    requires NoLoss(s) && s.relays == map[]
    ensures WellFormed(Act(s, BeginRelay(tx, batchSize))) && InFile(Act(s, BeginRelay(tx, batchSize)))
  {
    var after := Act(s, BeginRelay(tx, batchSize));
    ActKeepsNoLoss(s, BeginRelay(tx, batchSize));
    assert Locked(s) == {};
    forall k: nat, i: nat | k < |after.relays[tx].batch| && Older(s.rows, i, after.relays[tx].batch[k])
      ensures Queued(after, tx, k, i)
    {
      if i !in s.sent { OlderIsAccountedFor(s.rows, s.sent, {}, batchSize, k, i); }
    }
  }

  lemma PublishStaysInFile<E>(s: System<E>, tx: nat, delivery: Delivery)
    requires NoLoss(s) && InFile(s) && delivery != Rejected
    ensures WellFormed(Act(s, PublishRow(tx, delivery))) && InFile(Act(s, PublishRow(tx, delivery)))
    ensures TakesItsTurn(s, PublishRow(tx, delivery))
  {
    var after := Act(s, PublishRow(tx, delivery));
    ActKeepsNoLoss(s, PublishRow(tx, delivery));
    if tx in s.relays && s.relays[tx].done < |s.relays[tx].batch| {
      var batch, done := s.relays[tx].batch, s.relays[tx].done;
      assert forall i: nat :: Older(s.rows, i, batch[done]) ==> Queued(s, tx, done, i);
      forall k: nat, i: nat | done + 1 <= k < |batch| && Older(s.rows, i, batch[k]) ensures Queued(after, tx, k, i) {
        assert Queued(s, tx, k, i);
        if i !in after.sent {
          var j :| done <= j < k && batch[j] == i;
          assert j != done;
        }
      }
    }
  }

  lemma OtherStepStaysInFile<E>(s: System<E>, a: Action<E>)
    requires NoLoss(s) && InFile(s) && (a.Write? || a.Commit? || a.Abort?)
    ensures WellFormed(Act(s, a)) && InFile(Act(s, a))
  {
    var after := Act(s, a);
    ActKeepsNoLoss(s, a);
    ActKeepsRows(s, a);
    forall tx, k: nat, i: nat | tx in after.relays && after.relays[tx].done <= k < |after.relays[tx].batch|
      && Older(after.rows, i, after.relays[tx].batch[k])
      ensures Queued(after, tx, k, i)
    {
      assert after.relays[tx] == s.relays[tx] && Older(s.rows, i, s.relays[tx].batch[k]) && Queued(s, tx, k, i);
    }
  }

  /** Where per-aggregate order does hold: over every run in which relays do not overlap and no publish fails, with
      acknowledgements lost and relays rolled back at any point, every aggregate's events reach the topic in order. */
  lemma {:induction false} SingleRelayKeepsOrder<E>(s: System<E>, actions: seq<Action<E>>, later: System<E>)
    requires NoLoss(s) && InRange(s) && InOrder(s) && InFile(s)
    requires SingleFile(s, actions) && Reachable(s, actions, later)
    ensures InOrder(later)
    decreases |actions|
  {
    if actions != [] {
      var a := actions[0];
      match a {
        case BeginRelay(tx, batchSize) => BeginIsInFile(s, tx, batchSize);
        case PublishRow(tx, delivery) => PublishStaysInFile(s, tx, delivery);
        case _ => OtherStepStaysInFile(s, a);
      }
      ActKeepsNoLoss(s, a);
      StepKeepsOrderExactly(s, a);
      SingleRelayKeepsOrder(Act(s, a), actions[1..], later);
    }
  }

  /* ---- Two ways to lose order ---- */

  lemma BatchOfTwo<E>(first: Row<E>, second: Row<E>, limit: nat)
    requires !first.published && first.id == 0 && second.id == 1 && limit > 0
    ensures Batch([first, second], {}, limit) == if second.published || limit == 1 then [0] else [0, 1]
    ensures second.published || Batch([first, second], {0}, limit) == [1]
  {
    var rows, none := [first, second], Batch<E>([], {}, limit);
    assert rows[..1] == [first] && [first][..0] == [];
    assert Selectable(first, {}) && Batch([first], {}, limit) == none + [0] == [0];
    assert !Selectable(first, {0}) && Batch([first], {0}, limit) == Batch<E>([], {0}, limit) == [];
    assert [0] + [1] == [0, 1];
  }

  lemma PassOfTwo<E>(first: Row<E>, second: Row<E>)
    requires first.id == 0 && second.id == 1
    ensures
      var rows, deliveries := [first, second], [Rejected, Acknowledged];
      && SentIds(rows, [0, 1], deliveries) == [1]
      && Relayed(rows, [0, 1], deliveries) ==
         [first.(publishAttempts := first.publishAttempts + 1), second.(published := true)]
  {
    var rows, batch, one, deliveries := [first, second], [0, 1], [0], [Rejected, Acknowledged];
    assert batch[..1] == one && one[..0] == [];
    assert SentIds(rows, one, deliveries) == [];
    assert Relayed(rows, one, deliveries) == [first.(publishAttempts := first.publishAttempts + 1), second];
  }

  /** A failed publish: the first row of an aggregate is rejected, its second is sent by the same pass, and its first
      by the next pass. */
  lemma FailureReordersAggregate<E>(aggregateId: nat, e0: E, e1: E)
    ensures
      var rows := [Row(0, aggregateId, e0, false, 0), Row(1, aggregateId, e1, false, 0)];
      var next := Relayed(rows, [0, 1], [Rejected, Acknowledged]);
      && Batch(rows, {}, 2) == [0, 1] && SentIds(rows, [0, 1], [Rejected, Acknowledged]) == [1]
      && Batch(next, {}, 2) == [0] && SentIds(next, [0], [Acknowledged]) == [0]
      && !Ordered(next, [1, 0])
  {
    var first, second := Row(0, aggregateId, e0, false, 0), Row(1, aggregateId, e1, false, 0);
    BatchOfTwo(first, second, 2);
    PassOfTwo(first, second);
    var next := [first.(publishAttempts := 1), second.(published := true)];
    BatchOfTwo(next[0], next[1], 2);
    assert [0][..0] == [];
    assert Older(next, 0, 1) && [1, 0][..0] == [];
  }

  /** Two relays at work on a table of two rows of one aggregate: one holds the first row, the other the second. */
  function TwoRelays<E>(first: Row<E>, second: Row<E>): System<E>
  {
    System([first, second], [], map[1 := RelayTx([0], 0, []), 2 := RelayTx([1], 0, [])])
  }

  lemma FirstRelayBegins<E>(first: Row<E>, second: Row<E>)
    requires !first.published && first.id == 0 && second.id == 1
    ensures
      var written: System<E> := System([first, second], [], map[]);
      && WellFormed(written)
      && Act(written, BeginRelay(1, 1)) == System([first, second], [], map[1 := RelayTx([0], 0, [])])
  {
    var written: System<E> := System([first, second], [], map[]);
    BatchOfTwo(first, second, 1);
    hide Batch;
    assert Locked(written) == {};
  }

  lemma SecondRelayBegins<E>(first: Row<E>, second: Row<E>)
    requires !first.published && !second.published && first.id == 0 && second.id == 1
    ensures
      var begun: System<E> := System([first, second], [], map[1 := RelayTx([0], 0, [])]);
      WellFormed(begun) && Act(begun, BeginRelay(2, 1)) == TwoRelays(first, second)
  {
    var begun: System<E> := System([first, second], [], map[1 := RelayTx([0], 0, [])]);
    BatchOfTwo(first, second, 1);
    hide Batch;
    assert begun.relays[1].batch[0] == 0;
    assert Locked(begun) == {0};
  }

  lemma TwoRelaysHappen<E>(aggregateId: nat, e0: E, e1: E)
    ensures
      var first, second := Row(0, aggregateId, e0, false, 0), Row(1, aggregateId, e1, false, 0);
      var written: System<E> := System([first, second], [], map[]);
      && WellFormed(written) && WellFormed(Act(written, BeginRelay(1, 1)))
      && Act(Act(written, BeginRelay(1, 1)), BeginRelay(2, 1)) == TwoRelays(first, second)
  {
    hide Act, WellFormed;
    var first, second := Row(0, aggregateId, e0, false, 0), Row(1, aggregateId, e1, false, 0);
    FirstRelayBegins(first, second);
    SecondRelayBegins(first, second);
  }

  /** No failure at all: of two failure-free relays the second skips the locked first row of an aggregate and sends its
      second row first. */
  lemma SkippingReordersAggregate<E>(aggregateId: nat, e0: E, e1: E)
    ensures
      var first, second := Row(0, aggregateId, e0, false, 0), Row(1, aggregateId, e1, false, 0);
      var s: System<E> := System([first, second], [], map[]);
      && WellFormed(s) && WellFormed(Act(s, BeginRelay(1, 1)))
      && WellFormed(Act(Act(s, BeginRelay(1, 1)), BeginRelay(2, 1)))
      && (var after := Act(Act(Act(s, BeginRelay(1, 1)), BeginRelay(2, 1)), PublishRow(2, Acknowledged));
          after.sent == [1] && !InOrder(after))
  {
    var first, second := Row(0, aggregateId, e0, false, 0), Row(1, aggregateId, e1, false, 0);
    TwoRelaysHappen(aggregateId, e0, e1);
    var both := TwoRelays(first, second);
    assert WellFormed(both);
    var after := Act(both, PublishRow(2, Acknowledged));
    assert Older(after.rows, 0, 1) && after.sent[..0] == [];
  }
}

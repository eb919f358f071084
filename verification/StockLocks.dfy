/** Reservations and releases interleaved at the level of row locks: every row is locked, checked and moved in a
    step of its own, locks are held until commit or abort, and a transaction's moves become visible to others only
    at its commit. */
module StockLocks {
  import opened Basics
  import opened Contracts
  import opened StockLedger

  datatype Kind = Reserving | Releasing

  /** `locked` lines have been locked, and for a reservation also checked; `moved` lines have been moved. `dirty`
      holds the uncommitted values of the rows moved so far. */
  datatype Tx = Tx(kind: Kind, orderId: OrderId, lines: seq<ReservationLine>, locked: nat, moved: nat, dirty: Levels)

  /** Committed rows and row locks; `held` is what each RESERVED order holds, `recorded` the orders whose
      stream has an event, so that a second first event violates the unique index. */
  datatype System = System(levels: Levels, locks: map<Sku, nat>, txs: map<nat, Tx>,
                           held: map<OrderId, seq<ReservationLine>>, recorded: set<OrderId>)

  datatype Action =
    | BeginReserve(tx: nat, orderId: OrderId, lines: seq<ReservationLine>)
    | BeginRelease(tx: nat, orderId: OrderId)
    | LockNext(tx: nat)
    | MoveNext(tx: nat)
    | Commit(tx: nat)
    | Abort(tx: nat)
    | RecordFailure(tx: nat, orderId: OrderId)

  /** The end of a transaction: its locks go, and so do its uncommitted rows. */
  function End(s: System, tx: nat): System
  {
    s.(locks := map sku | sku in s.locks && s.locks[sku] != tx :: s.locks[sku], txs := s.txs - {tx})
  }

  predicate Blocked(s: System, tx: nat, sku: Sku) { sku in s.locks && s.locks[sku] != tx }

  function WithLock(s: System, tx: nat, sku: Sku): map<Sku, nat> {
    if sku in s.levels then s.locks[sku := tx] else s.locks
  }

  /** A reservation locks and checks the row of its next line. A row held by another transaction blocks, which is no
      step; a refused line aborts. */
  function Lock(s: System, tx: nat): System
    requires tx in s.txs && s.txs[tx].locked < |s.txs[tx].lines|
  {
    var t := s.txs[tx];
    var line := t.lines[t.locked];
    if Blocked(s, tx, line.sku) then s
    else if Refusal(s.levels, line).Some? then End(s, tx)
    else s.(txs := s.txs[tx := t.(locked := t.locked + 1)], locks := WithLock(s, tx, line.sku))
  }

  /** The row as the transaction sees it: its own uncommitted value, or the committed one. */
  function Visible(s: System, t: Tx, sku: Sku): StockLevel
    requires sku in s.levels
  {
    if sku in t.dirty then t.dirty[sku] else s.levels[sku]
  }

  /** The dirty rows after moving a line; a SKU without a row is passed over. */
  function Dirtied(s: System, t: Tx, line: ReservationLine): Levels
  {
    if line.sku !in s.levels then t.dirty
    else
      var row := Visible(s, t, line.sku);
      t.dirty[line.sku := row.(qtyReserved := row.qtyReserved + (if t.kind == Reserving then line.qty else -line.qty))]
  }

  /** One increment or decrement. A reservation has locked the row before; a release locks it now. */
  function MoveLine(s: System, tx: nat): System
    requires tx in s.txs && s.txs[tx].moved < |s.txs[tx].lines|
  {
    var t := s.txs[tx];
    var line := t.lines[t.moved];
    if t.kind == Reserving then
      if t.locked < |t.lines| then s else s.(txs := s.txs[tx := t.(moved := t.moved + 1, dirty := Dirtied(s, t, line))])
    else if Blocked(s, tx, line.sku) then s
    else
      s.(txs := s.txs[tx := t.(locked := t.moved + 1, moved := t.moved + 1, dirty := Dirtied(s, t, line))],
         locks := WithLock(s, tx, line.sku))
  }

  /** The committed rows with the dirty ones put over them. */
  function Overlay(levels: Levels, dirty: Levels): Levels
  {
    map sku | sku in levels :: if sku in dirty then dirty[sku] else levels[sku]
  }

  /** A commit with the event append inside: a violation of the unique index, or a guard that throws, aborts. */
  function Finish(s: System, tx: nat): System
    requires tx in s.txs
  {
    var t := s.txs[tx];
    if t.kind == Reserving then
      if t.orderId in s.recorded then End(s, tx)
      else
        End(s.(levels := Overlay(s.levels, t.dirty), held := s.held[t.orderId := t.lines],
               recorded := s.recorded + {t.orderId}), tx)
    else if t.orderId !in s.held then End(s, tx)
    else End(s.(levels := Overlay(s.levels, t.dirty), held := s.held - {t.orderId}), tx)
  }

  function Act(s: System, a: Action): System
  {
    match a
    case BeginReserve(tx, orderId, lines) =>
      if tx in s.txs then s else s.(txs := s.txs[tx := Tx(Reserving, orderId, lines, 0, 0, map[])])
    case BeginRelease(tx, orderId) =>
      if tx in s.txs || orderId !in s.held then s
      else s.(txs := s.txs[tx := Tx(Releasing, orderId, s.held[orderId], 0, 0, map[])])
    case LockNext(tx) =>
      if tx in s.txs && s.txs[tx].kind == Reserving && s.txs[tx].locked < |s.txs[tx].lines| then Lock(s, tx) else s
    case MoveNext(tx) => if tx in s.txs && s.txs[tx].moved < |s.txs[tx].lines| then MoveLine(s, tx) else s
    case Commit(tx) => if tx in s.txs && s.txs[tx].moved == |s.txs[tx].lines| then Finish(s, tx) else s
    case Abort(tx) => End(s, tx)
    case RecordFailure(_, orderId) => s.(recorded := s.recorded + {orderId})
  }

  function Exec(s: System, actions: seq<Action>): System
  {
    if actions == [] then s else Act(Exec(s, actions[..|actions| - 1]), actions[|actions| - 1])
  }

  /* ---- What every step keeps ---- */

  ghost function HeldOf(held: map<OrderId, seq<ReservationLine>>, sku: Sku): int
  {
    Sum(held.Keys, o => if o in held then Demand(held[o], sku) else 0)
  }

  /** The table after moving the lines. */
  function Moved(levels: Levels, kind: Kind, lines: seq<ReservationLine>): Levels
  {
    if kind == Reserving then Incremented(levels, lines) else Decremented(levels, lines)
  }

  predicate Owns(s: System, tx: nat, sku: Sku) { sku in s.locks && s.locks[sku] == tx }

  /** A live transaction owns the rows it locked, what a reservation has checked still stands, and its dirty rows are
      its own and show exactly the lines moved so far. */
  ghost predicate TxSound(s: System, tx: nat)
    requires tx in s.txs
  {
    var t := s.txs[tx];
    && t.moved <= t.locked <= |t.lines| && (t.kind == Reserving && t.moved > 0 ==> t.locked == |t.lines|)
    && (forall i :: 0 <= i < t.locked && t.lines[i].sku in s.levels ==> Owns(s, tx, t.lines[i].sku))
    && (t.kind == Reserving ==> forall i :: 0 <= i < t.locked ==> Refusal(s.levels, t.lines[i]).None?)
    && (t.kind == Releasing ==>
          t.locked == t.moved && t.orderId in s.recorded && (t.orderId in s.held ==> s.held[t.orderId] == t.lines))
    && (forall sku :: sku in t.dirty ==> sku in s.levels && Owns(s, tx, sku))
    && Overlay(s.levels, t.dirty) == Moved(s.levels, t.kind, t.lines[..t.moved])
  }

  /** Every row's reserved quantity is what it was at the start plus what the RESERVED orders hold of it. */
  ghost predicate Conserved(initial: Levels, s: System)
  {
    && s.levels.Keys == initial.Keys
    && forall sku :: sku in initial ==>
         s.levels[sku] == StockLevel(initial[sku].qtyAvailable, initial[sku].qtyReserved + HeldOf(s.held, sku))
  }

  ghost predicate Sound(initial: Levels, s: System)
  {
    && (forall tx :: tx in s.txs ==> TxSound(s, tx))
    && s.held.Keys <= s.recorded
    && Conserved(initial, s)
  }

  lemma EndKeepsTx(s: System, tx: nat, other: nat)
    requires other in s.txs && other != tx && TxSound(s, other)
    ensures TxSound(End(s, tx), other)
  {
  }

  /** A commit changes no row that another transaction has locked. */
  lemma CommitSparesLocked(s: System, tx: nat, other: nat, sku: Sku)
    requires tx in s.txs && TxSound(s, tx) && other != tx && sku in s.levels && Owns(s, other, sku)
    ensures sku in Finish(s, tx).levels && Finish(s, tx).levels[sku] == s.levels[sku]
  {
  }

  lemma DirtySurvives(s: System, after: System, tx: nat, other: nat)
    requires tx in s.txs && TxSound(s, tx) && other in s.txs && other != tx && TxSound(s, other)
    requires after == Finish(s, tx) && after.levels.Keys == s.levels.Keys
    ensures Overlay(after.levels, s.txs[other].dirty)
              == Moved(after.levels, s.txs[other].kind, s.txs[other].lines[..s.txs[other].moved])
  {
    hide Finish;
    var o := s.txs[other];
    var lines := o.lines[..o.moved];
    forall sku | sku in s.levels
      ensures Overlay(after.levels, o.dirty)[sku] == Moved(after.levels, o.kind, lines)[sku]
    {
      assert Overlay(s.levels, o.dirty)[sku] == Moved(s.levels, o.kind, lines)[sku];
      if sku in o.dirty { CommitSparesLocked(s, tx, other, sku); }
    }
    assert Overlay(after.levels, o.dirty).Keys == Moved(after.levels, o.kind, lines).Keys;
  }

  lemma ChecksSurvive(s: System, tx: nat, other: nat)
    requires tx in s.txs && TxSound(s, tx) && other in s.txs && other != tx && TxSound(s, other)
    ensures
      var o := s.txs[other];
      o.kind == Reserving ==> forall i :: 0 <= i < o.locked ==> Refusal(Finish(s, tx).levels, o.lines[i]).None?
  {
    var after, o := Finish(s, tx), s.txs[other];
    if o.kind == Reserving {
      forall i | 0 <= i < o.locked ensures Refusal(after.levels, o.lines[i]).None? {
        assert Refusal(s.levels, o.lines[i]).None?;
        CommitSparesLocked(s, tx, other, o.lines[i].sku);
      }
    }
  }

  /** What a commit leaves alone. */
  lemma FinishSpares(s: System, tx: nat, other: nat)
    requires tx in s.txs && TxSound(s, tx) && other in s.txs && other != tx && TxSound(s, other)
    requires s.held.Keys <= s.recorded
    ensures
      var after, o := Finish(s, tx), s.txs[other];
      && other in after.txs && after.txs[other] == o && after.levels.Keys == s.levels.Keys
      && s.recorded <= after.recorded
      && (forall sku :: Owns(s, other, sku) ==> Owns(after, other, sku))
      && (o.kind == Releasing && o.orderId in after.held ==>
            o.orderId in s.held && after.held[o.orderId] == s.held[o.orderId])
  {
  }

  /** Other transactions keep what they locked, checked and moved across a commit. */
  lemma CommitKeepsTx(s: System, tx: nat, other: nat)
    requires tx in s.txs && TxSound(s, tx) && other in s.txs && other != tx && TxSound(s, other)
    requires s.held.Keys <= s.recorded
    ensures TxSound(Finish(s, tx), other)
  {
    var after, o := Finish(s, tx), s.txs[other];
    hide Refusal, Overlay, Moved, Finish, Owns;
    FinishSpares(s, tx, other);
    ChecksSurvive(s, tx, other);
    DirtySurvives(s, after, tx, other);
  }

  lemma HeldGrows(held: map<OrderId, seq<ReservationLine>>, o: OrderId, lines: seq<ReservationLine>, sku: Sku)
    requires o !in held
    ensures HeldOf(held[o := lines], sku) == HeldOf(held, sku) + Demand(lines, sku)
  {
    var after := held[o := lines];
    assert after.Keys == held.Keys + {o};
    SumUpdate(held.Keys, k => if k in held then Demand(held[k], sku) else 0,
              k => if k in after then Demand(after[k], sku) else 0, o);
  }

  lemma HeldShrinks(held: map<OrderId, seq<ReservationLine>>, o: OrderId, sku: Sku)
    requires o in held
    ensures HeldOf(held - {o}, sku) == HeldOf(held, sku) - Demand(held[o], sku)
  {
    var after := held - {o};
    assert after[o := held[o]] == held;
    HeldGrows(after, o, held[o], sku);
  }

  lemma CommitKeepsConserved(initial: Levels, s: System, tx: nat)
    requires Conserved(initial, s) && s.held.Keys <= s.recorded
    requires tx in s.txs && TxSound(s, tx) && s.txs[tx].moved == |s.txs[tx].lines|
    ensures Conserved(initial, Finish(s, tx))
  {
    var t, after := s.txs[tx], Finish(s, tx);
    assert t.lines[..t.moved] == t.lines;
    forall sku | sku in initial
      ensures after.levels[sku] ==
          StockLevel(initial[sku].qtyAvailable, initial[sku].qtyReserved + HeldOf(after.held, sku))
    {
      assert Overlay(s.levels, t.dirty)[sku] == Moved(s.levels, t.kind, t.lines)[sku];
      if t.kind == Reserving && t.orderId !in s.recorded {
        HeldGrows(s.held, t.orderId, t.lines, sku);
      } else if t.kind == Releasing && t.orderId in s.held {
        HeldShrinks(s.held, t.orderId, sku);
      }
    }
  }

  lemma LockKeepsTx(s: System, tx: nat, other: nat)
    requires tx in s.txs && other in s.txs && TxSound(s, tx) && TxSound(s, other)
    requires s.txs[tx].kind == Reserving && s.txs[tx].locked < |s.txs[tx].lines| && other in Lock(s, tx).txs
    ensures TxSound(Lock(s, tx), other)
  {
    if Lock(s, tx) == End(s, tx) { EndKeepsTx(s, tx, other); }
  }

  /** Moving one more line makes the dirty rows show one more line. */
  lemma DirtiedShows(s: System, t: Tx)
    requires t.moved < |t.lines| && Overlay(s.levels, t.dirty) == Moved(s.levels, t.kind, t.lines[..t.moved])
    ensures Overlay(s.levels, Dirtied(s, t, t.lines[t.moved])) == Moved(s.levels, t.kind, t.lines[..t.moved + 1])
  {
    var before, after := t.lines[..t.moved], t.lines[..t.moved + 1];
    assert after[..t.moved] == before;
    var moved := Overlay(s.levels, Dirtied(s, t, t.lines[t.moved]));
    forall sku | sku in s.levels ensures moved[sku] == Moved(s.levels, t.kind, after)[sku] {
      assert Overlay(s.levels, t.dirty)[sku] == Moved(s.levels, t.kind, before)[sku];
    }
    assert moved.Keys == Moved(s.levels, t.kind, after).Keys;
  }

  lemma MoveKeepsTx(s: System, tx: nat, other: nat)
    requires tx in s.txs && other in s.txs && TxSound(s, tx) && TxSound(s, other) && s.txs[tx].moved < |s.txs[tx].lines|
    ensures TxSound(MoveLine(s, tx), other)
  {
    if other == tx { DirtiedShows(s, s.txs[tx]); }
  }

  lemma NewTxIsSound(s: System, a: Action, tx: nat)
    requires tx in Act(s, a).txs && tx !in s.txs && s.held.Keys <= s.recorded
    ensures TxSound(Act(s, a), tx)
  {
    var t := Act(s, a).txs[tx];
    assert t.lines[..0] == [];
    assert Overlay(s.levels, map[]) == Moved(s.levels, t.kind, []);
  }

  lemma OtherActKeepsTx(s: System, a: Action, other: nat)
    requires (a.BeginReserve? || a.BeginRelease? || a.RecordFailure?) && other in s.txs && TxSound(s, other)
    ensures TxSound(Act(s, a), other)
  {
  }

  lemma ActKeepsTx(initial: Levels, s: System, a: Action, other: nat)
    requires Sound(initial, s) && other in Act(s, a).txs
    ensures TxSound(Act(s, a), other)
  {
    hide TxSound;
    if other in s.txs {
      assert TxSound(s, other);
      match a {
        case LockNext(tx) =>
          if tx in s.txs && s.txs[tx].kind == Reserving && s.txs[tx].locked < |s.txs[tx].lines| {
            LockKeepsTx(s, tx, other);
          }
        case MoveNext(tx) => if tx in s.txs && s.txs[tx].moved < |s.txs[tx].lines| { MoveKeepsTx(s, tx, other); }
        case Commit(tx) => if tx in s.txs && s.txs[tx].moved == |s.txs[tx].lines| { CommitKeepsTx(s, tx, other); }
        case Abort(tx) => EndKeepsTx(s, tx, other);
        case _ => OtherActKeepsTx(s, a, other);
      }
    } else {
      NewTxIsSound(s, a, other);
    }
  }

  lemma ActKeepsSound(initial: Levels, s: System, a: Action)
    requires Sound(initial, s)
    ensures Sound(initial, Act(s, a))
  {
    forall other | other in Act(s, a).txs ensures TxSound(Act(s, a), other) { ActKeepsTx(initial, s, a, other); }
    if a.Commit? && a.tx in s.txs && s.txs[a.tx].moved == |s.txs[a.tx].lines| {
      CommitKeepsConserved(initial, s, a.tx);
    }
  }

  /** The stock table before any reservation of these orders; its reserved quantities may be anything. */
  function Fresh(levels: Levels): System { System(levels, map[], map[], map[], {}) }

  /** Conservation under row-lock interleaving: after every run, the reserved quantity of every SKU is its starting
      value plus what the committed, unreleased reservations hold, whatever aborted halfway through its moves,
      conflicted or worked from a stale load. */
  lemma {:induction false} StockIsConserved(levels: Levels, actions: seq<Action>)
    ensures Sound(levels, Exec(Fresh(levels), actions)) && Conserved(levels, Exec(Fresh(levels), actions))
    decreases |actions|
  {
    if actions != [] {
      StockIsConserved(levels, actions[..|actions| - 1]);
      ActKeepsSound(levels, Exec(Fresh(levels), actions[..|actions| - 1]), actions[|actions| - 1]);
    }
  }

  /* ---- No oversell ---- */

  predicate WellBehaved(lines: seq<ReservationLine>) { DistinctSkus(lines) && PositiveQuantities(lines) }

  predicate AllWellBehaved(actions: seq<Action>)
  {
    forall i :: 0 <= i < |actions| && actions[i].BeginReserve? ==> WellBehaved(actions[i].lines)
  }

  ghost predicate Bounded(s: System)
  {
    && WithinStock(s.levels)
    && (forall tx :: tx in s.txs ==> WellBehaved(s.txs[tx].lines))
    && (forall o :: o in s.held ==> WellBehaved(s.held[o]))
  }

  lemma ReserveStaysWithin(s: System, tx: nat)
    requires tx in s.txs && TxSound(s, tx) && WithinStock(s.levels) && WellBehaved(s.txs[tx].lines)
    requires s.txs[tx].kind == Reserving && s.txs[tx].moved == |s.txs[tx].lines|
    ensures WithinStock(Overlay(s.levels, s.txs[tx].dirty))
  {
    var t := s.txs[tx];
    assert t.lines[..t.moved] == t.lines;
    NoShortfall(s.levels, t.lines);
    DistinctNeverOversells(s.levels, t.lines);
  }

  lemma ReleaseStaysWithin(initial: Levels, s: System, tx: nat)
    requires Conserved(initial, s) && WithinStock(initial) && Bounded(s) && tx in s.txs && TxSound(s, tx)
    requires s.txs[tx].kind == Releasing && s.txs[tx].moved == |s.txs[tx].lines| && s.txs[tx].orderId in s.held
    ensures WithinStock(Overlay(s.levels, s.txs[tx].dirty))
  {
    var t := s.txs[tx];
    assert t.lines[..t.moved] == t.lines;
    forall sku | sku in s.levels ensures 0 <= Demand(t.lines, sku) <= s.levels[sku].qtyReserved {
      DemandNonNegative(t.lines, sku);
      HeldShrinks(s.held, t.orderId, sku);
      var rest := s.held - {t.orderId};
      forall k | k in rest ensures Demand(rest[k], sku) >= 0 { DemandNonNegative(rest[k], sku); }
      SumNonNegative(rest.Keys, k => if k in rest then Demand(rest[k], sku) else 0);
    }
  }

  lemma CommitKeepsBounded(initial: Levels, s: System, tx: nat)
    requires Sound(initial, s) && WithinStock(initial) && Bounded(s)
    requires tx in s.txs && s.txs[tx].moved == |s.txs[tx].lines|
    ensures Bounded(Act(s, Commit(tx)))
  {
    assert TxSound(s, tx);
    if s.txs[tx].kind == Reserving {
      ReserveStaysWithin(s, tx);
    } else if s.txs[tx].orderId in s.held {
      ReleaseStaysWithin(initial, s, tx);
    }
  }

  lemma ActKeepsBounded(initial: Levels, s: System, a: Action)
    requires Sound(initial, s) && WithinStock(initial) && Bounded(s) && (a.BeginReserve? ==> WellBehaved(a.lines))
    ensures Bounded(Act(s, a))
  {
    if a.Commit? && a.tx in s.txs && s.txs[a.tx].moved == |s.txs[a.tx].lines| {
      CommitKeepsBounded(initial, s, a.tx);
    }
  }

  /** No oversell under row-lock interleaving: from any sound stock table, when every reservation names each SKU once
      with a positive quantity, every committed state has 0 <= qtyReserved <= qtyAvailable for every SKU. */
  lemma {:induction false} NeverOversold(levels: Levels, actions: seq<Action>)
    requires WithinStock(levels) && AllWellBehaved(actions)
    ensures Bounded(Exec(Fresh(levels), actions)) && WithinStock(Exec(Fresh(levels), actions).levels)
    decreases |actions|
  {
    if actions != [] {
      var before := Exec(Fresh(levels), actions[..|actions| - 1]);
      StockIsConserved(levels, actions[..|actions| - 1]);
      NeverOversold(levels, actions[..|actions| - 1]);
      ActKeepsBounded(levels, before, actions[|actions| - 1]);
    }
  }
}

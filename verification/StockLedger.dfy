/** The stock_level table: checking and moving the reserved quantity of every line. */
module StockLedger {
  import opened Basics
  import opened Contracts

  datatype StockLevel = StockLevel(qtyAvailable: int, qtyReserved: int) {
    function AvailableToSell(): int { qtyAvailable - qtyReserved }
  }

  type Levels = map<Sku, StockLevel>

  datatype Shortage = Shortage(sku: Sku, reason: ShortfallReason)

  /** What the check of a single line, made on its own, finds wrong. */
  function Refusal(levels: Levels, line: ReservationLine): Option<Shortage>
  {
    if line.sku !in levels then Some(Shortage(line.sku, UnknownSku))
    else if levels[line.sku].AvailableToSell() < line.qty then
      Some(Shortage(line.sku, OnlyAvailable(line.qty, levels[line.sku].AvailableToSell())))
    else None
  }

  /** The first line that is refused. */
  function Shortfall(levels: Levels, lines: seq<ReservationLine>): Option<Shortage>
  {
    if lines == [] then None
    else if Refusal(levels, lines[0]).Some? then Refusal(levels, lines[0])
    else Shortfall(levels, lines[1..])
  }

  lemma {:induction false} NoShortfall(levels: Levels, lines: seq<ReservationLine>)
    ensures Shortfall(levels, lines).None? <==> forall i :: 0 <= i < |lines| ==> Refusal(levels, lines[i]).None?
    decreases |lines|
  {
    if lines != [] {
      NoShortfall(levels, lines[1..]);
      assert forall i :: 0 < i < |lines| ==> lines[i] == lines[1..][i - 1];
      assert forall i :: 0 <= i < |lines| - 1 ==> lines[1..][i] == lines[i + 1];
    }
  }

  /** The line names a SKU there is and asks for no more of it than can be sold. */
  predicate Covered(levels: Levels, line: ReservationLine)
  {
    line.sku in levels && line.qty <= levels[line.sku].qtyAvailable - levels[line.sku].qtyReserved
  }

  /** What is reported is about line i, which is unknown, or asks for more than there is left. */
  predicate Reports(levels: Levels, line: ReservationLine, shortage: Shortage)
  {
    && shortage.sku == line.sku
    && (line.sku !in levels ==> shortage.reason == UnknownSku)
    && (line.sku in levels ==>
          && shortage.reason.OnlyAvailable?
          && shortage.reason.requested == line.qty
          && shortage.reason.available == levels[line.sku].qtyAvailable - levels[line.sku].qtyReserved
          && shortage.reason.available < shortage.reason.requested)
  }

  /** Reports on the first line that is not covered, if there is one. */
  ghost predicate ReportsFirst(levels: Levels, lines: seq<ReservationLine>, refused: Option<Shortage>)
  {
    match refused
    case None => forall i :: 0 <= i < |lines| ==> Covered(levels, lines[i])
    case Some(shortage) =>
      exists i ::
        && 0 <= i < |lines|
        && (forall j :: 0 <= j < i ==> Covered(levels, lines[j]))
        && Reports(levels, lines[i], shortage)
  }

  lemma {:induction false} FirstShortage(levels: Levels, lines: seq<ReservationLine>)
    ensures ReportsFirst(levels, lines, Shortfall(levels, lines))
    decreases |lines|
  {
    if lines != [] && Refusal(levels, lines[0]).Some? {
      assert Reports(levels, lines[0], Shortfall(levels, lines).value);
    } else if lines != [] {
      var rest, refused := lines[1..], Shortfall(levels, lines);
      FirstShortage(levels, rest);
      assert forall i :: 0 < i < |lines| ==> lines[i] == rest[i - 1];
      if refused.Some? {
        var i :| && 0 <= i < |rest|
                 && (forall j :: 0 <= j < i ==> Covered(levels, rest[j]))
                 && Reports(levels, rest[i], refused.value);
        assert Reports(levels, lines[i + 1], refused.value);
        assert forall j :: 0 <= j < i + 1 ==> Covered(levels, lines[j]);
      } else {
        assert forall i :: 0 <= i < |rest| ==> rest[i] == lines[i + 1];
      }
    }
  }

  /** The table after reserving the lines: every row goes up by what the lines together ask of it. */
  function Incremented(levels: Levels, lines: seq<ReservationLine>): Levels
  {
    map sku | sku in levels :: levels[sku].(qtyReserved := levels[sku].qtyReserved + Demand(lines, sku))
  }

  /** The table after releasing the lines. */
  function Decremented(levels: Levels, lines: seq<ReservationLine>): Levels
  {
    map sku | sku in levels :: levels[sku].(qtyReserved := levels[sku].qtyReserved - Demand(lines, sku))
  }

  /** Releasing undoes reserving, whatever the lines. */
  lemma ReleaseUndoesReserve(levels: Levels, lines: seq<ReservationLine>)
    ensures Decremented(Incremented(levels, lines), lines) == levels
  {
    assert Decremented(Incremented(levels, lines), lines).Keys == levels.Keys;
  }

  class StockRepository {
    var levels: Levels

    constructor (levels: Levels)
      ensures this.levels == levels
    {
      this.levels := levels;
    }

    /** Locks and checks every line, then increments every line. */
    method ReserveLinesWithinTransaction(lines: seq<ReservationLine>) returns (refused: Option<Shortage>)
      modifies this
      ensures refused == Shortfall(old(levels), lines)
      ensures ReportsFirst(old(levels), lines, refused)
      ensures levels == if refused.Some? then old(levels) else Incremented(old(levels), lines)
    {
      FirstShortage(levels, lines);
      var i := 0;
      while i < |lines|
        invariant 0 <= i <= |lines| && levels == old(levels)
        invariant Shortfall(levels, lines) == Shortfall(levels, lines[i..])
      {
        var line := lines[i];
        if line.sku !in levels {
          return Some(Shortage(line.sku, UnknownSku));
        }
        var availableToSell := levels[line.sku].qtyAvailable - levels[line.sku].qtyReserved;
        if availableToSell < line.qty {
          return Some(Shortage(line.sku, OnlyAvailable(line.qty, availableToSell)));
        }
        i := i + 1;
      }
      assert lines[i..] == [];
      i := 0;
      while i < |lines|
        invariant 0 <= i <= |lines|
        invariant levels == Incremented(old(levels), lines[..i])
      {
        var line := lines[i];
        assert lines[..i + 1][..i] == lines[..i];
        if line.sku in levels {
          levels := levels[line.sku := levels[line.sku].(qtyReserved := levels[line.sku].qtyReserved + line.qty)];
        }
        i := i + 1;
      }
      assert lines[..i] == lines;
      refused := None;
    }

    method ReleaseLinesWithinTransaction(lines: seq<ReservationLine>)
      modifies this
      ensures levels == Decremented(old(levels), lines)
    {
      var i := 0;
      while i < |lines|
        invariant 0 <= i <= |lines|
        invariant levels == Decremented(old(levels), lines[..i])
      {
        var line := lines[i];
        assert lines[..i + 1][..i] == lines[..i];
        if line.sku in levels {
          levels := levels[line.sku := levels[line.sku].(qtyReserved := levels[line.sku].qtyReserved - line.qty)];
        }
        i := i + 1;
      }
      assert lines[..i] == lines;
    }
  }

  /* ---- When the line-by-line check prevents overselling ---- */

  ghost predicate WithinStock(levels: Levels)
  {
    forall sku :: sku in levels ==> 0 <= levels[sku].qtyReserved <= levels[sku].qtyAvailable
  }

  predicate DistinctSkus(lines: seq<ReservationLine>)
  {
    forall i, j :: 0 <= i < j < |lines| ==> lines[i].sku != lines[j].sku
  }

  predicate PositiveQuantities(lines: seq<ReservationLine>)
  {
    forall i :: 0 <= i < |lines| ==> lines[i].qty > 0
  }

  lemma {:induction false} DemandAbsent(lines: seq<ReservationLine>, sku: Sku)
    requires forall i :: 0 <= i < |lines| ==> lines[i].sku != sku
    ensures Demand(lines, sku) == 0
    decreases |lines|
  {
    if lines != [] { DemandAbsent(lines[..|lines| - 1], sku); }
  }

  /** With distinct SKUs the demand for a SKU is its one line's quantity. */
  lemma {:induction false} DemandOfDistinct(lines: seq<ReservationLine>, sku: Sku)
    requires DistinctSkus(lines)
    ensures
      || Demand(lines, sku) == 0
      || exists i :: 0 <= i < |lines| && lines[i].sku == sku && Demand(lines, sku) == lines[i].qty
    decreases |lines|
  {
    if lines != [] {
      var n := |lines| - 1;
      if lines[n].sku == sku {
        DemandAbsent(lines[..n], sku);
        assert Demand(lines, sku) == lines[n].qty;
      } else {
        DemandOfDistinct(lines[..n], sku);
        if Demand(lines[..n], sku) != 0 {
          var i :| 0 <= i < |lines[..n]| && lines[..n][i].sku == sku && Demand(lines[..n], sku) == lines[..n][i].qty;
          assert lines[i].sku == sku && Demand(lines, sku) == lines[i].qty;
        }
      }
    }
  }

  lemma {:induction false} DemandNonNegative(lines: seq<ReservationLine>, sku: Sku)
    requires PositiveQuantities(lines)
    ensures Demand(lines, sku) >= 0
    decreases |lines|
  {
    if lines != [] { DemandNonNegative(lines[..|lines| - 1], sku); }
  }

  lemma DistinctNeverOversells(levels: Levels, lines: seq<ReservationLine>)
    requires PositiveQuantities(lines) && DistinctSkus(lines)
    requires WithinStock(levels) && Shortfall(levels, lines).None?
    ensures WithinStock(Incremented(levels, lines))
  {
    NoShortfall(levels, lines);
    forall sku | sku in levels
      ensures 0 <= Demand(lines, sku) <= levels[sku].AvailableToSell()
    {
      DemandNonNegative(lines, sku);
      DemandOfDistinct(lines, sku);
      if Demand(lines, sku) != 0 {
        var i :| 0 <= i < |lines| && lines[i].sku == sku && Demand(lines, sku) == lines[i].qty;
        assert Refusal(levels, lines[i]).None?;
      }
    }
  }

  /** The largest single quantity asked of a SKU. */
  function LargestLine(lines: seq<ReservationLine>, sku: Sku): int
  {
    if lines == [] then 0
    else
      var rest := LargestLine(lines[..|lines| - 1], sku);
      var last := lines[|lines| - 1];
      if last.sku == sku && last.qty > rest then last.qty else rest
  }

  lemma {:induction false} LargestLineBounds(lines: seq<ReservationLine>, sku: Sku)
    requires PositiveQuantities(lines)
    ensures 0 <= LargestLine(lines, sku) <= Demand(lines, sku)
    ensures forall i :: 0 <= i < |lines| && lines[i].sku == sku ==> 0 < lines[i].qty <= LargestLine(lines, sku)
    ensures (exists i, j :: 0 <= i < j < |lines| && lines[i].sku == sku && lines[j].sku == sku)
              ==> LargestLine(lines, sku) < Demand(lines, sku)
    decreases |lines|
  {
    if lines != [] {
      var n := |lines| - 1;
      LargestLineBounds(lines[..n], sku);
      assert forall i :: 0 <= i < n ==> lines[i] == lines[..n][i];
      if i, j :| 0 <= i < j < |lines| && lines[i].sku == sku && lines[j].sku == sku {
        if j < n {
          assert lines[..n][i].sku == sku && lines[..n][j].sku == sku;
        } else {
          assert lines[..n][i].sku == sku;
        }
      }
    }
  }

  /** The table in which every SKU has just enough for its largest line. */
  function TightLevels(lines: seq<ReservationLine>): Levels
  {
    map sku | sku in (set i | 0 <= i < |lines| :: lines[i].sku) :: StockLevel(LargestLine(lines, sku), 0)
  }

  lemma RepeatedSkuOversells(lines: seq<ReservationLine>, i: nat, j: nat)
    requires PositiveQuantities(lines)
    requires i < j < |lines| && lines[i].sku == lines[j].sku
    ensures WithinStock(TightLevels(lines)) && Shortfall(TightLevels(lines), lines).None?
    ensures !WithinStock(Incremented(TightLevels(lines), lines))
  {
    var levels := TightLevels(lines);
    forall sku ensures 0 <= LargestLine(lines, sku) { LargestLineBounds(lines, sku); }
    forall k | 0 <= k < |lines|
      ensures Refusal(levels, lines[k]).None?
    {
      LargestLineBounds(lines, lines[k].sku);
    }
    NoShortfall(levels, lines);
    var sku := lines[i].sku;
    LargestLineBounds(lines, sku);
    assert sku in levels && Incremented(levels, lines)[sku].qtyReserved > levels[sku].qtyAvailable;
  }

  /** The exact condition for the documented no-oversell guarantee. Checking each line against the row as it
      stood before any increment protects every stock table if and only if no SKU appears on two lines. */
  lemma NoOversellExactlyWhenDistinct(lines: seq<ReservationLine>)
    requires PositiveQuantities(lines)
    ensures DistinctSkus(lines) <==>
            forall levels: Levels :: WithinStock(levels) && Shortfall(levels, lines).None? ==>
                WithinStock(Incremented(levels, lines))
  {
    if DistinctSkus(lines) {
      forall levels: Levels | WithinStock(levels) && Shortfall(levels, lines).None?
        ensures WithinStock(Incremented(levels, lines))
      {
        DistinctNeverOversells(levels, lines);
      }
    } else {
      var i, j :| 0 <= i < j < |lines| && lines[i].sku == lines[j].sku;
      RepeatedSkuOversells(lines, i, j);
    }
  }

  /** A concrete oversell: two lines of 3 for a SKU with 4 on hand are both accepted, and 6 are reserved. */
  lemma DuplicateLinesOversell()
    ensures
      var levels := map[7 := StockLevel(4, 0)];
      var lines := [ReservationLine(7, 3), ReservationLine(7, 3)];
      && WithinStock(levels) && Shortfall(levels, lines).None?
      && Incremented(levels, lines)[7] == StockLevel(4, 6)
  {
    var levels := map[7 := StockLevel(4, 0)];
    var line := ReservationLine(7, 3);
    assert [line, line][1..] == [line] && [line][1..] == [];
    assert [line, line][..1] == [line] && [line][..0] == [];
    assert Demand([line], 7) == 3;
    assert Shortfall(levels, [line]).None?;
  }
}

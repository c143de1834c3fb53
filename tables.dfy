/**
 * The decoding tables of rotencPi and the pure step rules built on them:
 * the 16-entry SIMPLE_TABLE indexed by the history nibble abAB, and the
 * HALF_TABLE and FULL_TABLE transition tables whose cells hold the next row
 * in their low nibble and a direction flag, 0x10 (+ve) or 0x20 (-ve), above it.
 */
module EncoderTables {
  import opened Quadrature

  /** SIMPLE_TABLE: the direction for each history nibble abAB. */
  const SimpleTable: seq<int> := [0, -1, 1, 0, 1, 0, 0, -1, -1, 0, 0, 1, 0, 1, -1, 0]

  /** HALF_TABLE: 6 rows (Start, -ve begin, +ve begin, Halfway, +ve begin, -ve begin) by AB. */
  const HalfTable: seq<seq<bv8>> :=
    [[0x03, 0x02, 0x01, 0x00],
     [0x23, 0x00, 0x01, 0x00],
     [0x13, 0x02, 0x00, 0x00],
     [0x03, 0x05, 0x04, 0x00],
     [0x03, 0x03, 0x04, 0x10],
     [0x03, 0x05, 0x03, 0x20]]

  /** FULL_TABLE: 7 rows (Start, +ve end, +ve begin, +ve next, -ve begin, -ve end, -ve next) by AB. */
  const FullTable: seq<seq<bv8>> :=
    [[0x00, 0x02, 0x04, 0x00],
     [0x03, 0x00, 0x01, 0x10],
     [0x03, 0x02, 0x00, 0x00],
     [0x03, 0x02, 0x01, 0x00],
     [0x06, 0x00, 0x04, 0x00],
     [0x06, 0x05, 0x00, 0x20],
     [0x06, 0x05, 0x04, 0x00]]

  /** Flag bits of a transition-table cell. */
  const PositiveFlag: bv8 := 0x10
  const NegativeFlag: bv8 := 0x20

  /** The row every state machine starts in. */
  const Start: nat := 0

  /** The HALF machine's row for the half-detent position 00. */
  const Halfway: nat := 3

  // ---------------------------------------------------------------------------
  // SIMPLE_2 / SIMPLE_4: the history nibble and SIMPLE_TABLE
  // ---------------------------------------------------------------------------

  /**
   * The history nibble after a new reading: the previous AB moves into bits
   * 3-2 (as ab) and the new reading fills bits 1-0 (as AB).
   */
  function ShiftHistory(h: bv8, cur: Lines): (h': bv8)
    ensures h' < 16
    ensures h' >> 2 == h & 3
    ensures h' & 3 == Code(cur)
  {
    ((h << 2) | Code(cur)) & 0x0F
  }

  /** The nibble abAB of the transition `prev` -> `cur`. */
  function Nibble(prev: Lines, cur: Lines): bv8
  {
    ShiftHistory(Code(prev), cur)
  }

  /** Shifting a reading into a history nibble forms the nibble of the transition from the history's last reading. */
  lemma ShiftHistoryLastReading(h: bv8, cur: Lines)
    ensures ShiftHistory(h, cur) == Nibble(Decode(h), cur)
  {
  }

  /** Every nibble is the nibble of exactly one transition. */
  lemma NibbleOfEveryTransition(h: bv8)
    requires h < 16
    ensures exists prev: Lines, cur: Lines :: Nibble(prev, cur) == h
    ensures forall prev: Lines, cur: Lines :: Nibble(prev, cur) == h ==>
      prev == Lines(h & 8 == 8, h & 4 == 4) && cur == Lines(h & 2 == 2, h & 1 == 1)
  {
    var prev := Lines(h & 8 == 8, h & 4 == 4);
    var cur := Lines(h & 2 == 2, h & 1 == 1);
    assert Nibble(prev, cur) == h;
  }

  /** The direction SIMPLE_TABLE gives for history nibble `h`. */
  function TableDirection(h: bv8): int
    requires h < 16
  {
    SimpleTable[h as int]
  }

  /**
   * SIMPLE_TABLE is exactly the quadrature reference: for every one of the 16
   * transitions it gives +1 for a forward quarter-cycle, -1 for a backward one
   * and 0 when nothing changed or both lines changed.
   */
  lemma SimpleTableIsDisplacement(prev: Lines, cur: Lines)
    ensures TableDirection(Nibble(prev, cur)) == Displacement(prev, cur)
  {
  }

  /**
   * The entries of SIMPLE_TABLE: all in {-1, 0, +1}; 0 for the unchanged
   * nibbles 0x0, 0x5, 0xa, 0xf and the two-bit jumps 0x3, 0x6, 0x9, 0xc;
   * +1 for 0x2, 0xb, 0xd, 0x4 and -1 for 0xe, 0x8, 0x1, 0x7.
   */
  lemma SimpleTableEntries()
    ensures forall h: bv8 :: h < 16 ==> -1 <= TableDirection(h) <= 1
    ensures forall h: bv8 :: h < 16 ==>
      (TableDirection(h) == 0 <==> h in {0x0, 0x5, 0xa, 0xf, 0x3, 0x6, 0x9, 0xc})
    ensures forall h: bv8 :: h < 16 ==> (TableDirection(h) == 1 <==> h in {0x2, 0xb, 0xd, 0x4})
    ensures forall h: bv8 :: h < 16 ==> (TableDirection(h) == -1 <==> h in {0xe, 0x8, 0x1, 0x7})
  {
  }

  // ---------------------------------------------------------------------------
  // HALF / FULL: the transition tables
  // ---------------------------------------------------------------------------

  datatype Table = Half | Full

  /** The cells of a transition table, row by row. */
  function Cells(t: Table): seq<seq<bv8>>
  {
    match t
    case Half => HalfTable
    case Full => FullTable
  }

  /** The number of rows (states) of a transition table. */
  function Rows(t: Table): nat
  {
    |Cells(t)|
  }

  /** The cell for row `row` and reading `cur`: the column is the code AB. */
  function Cell(t: Table, row: nat, cur: Lines): bv8
    requires row < Rows(t)
  {
    assert |Cells(t)[row]| == 4;
    Cells(t)[row][Code(cur) as int]
  }

  /** The direction a cell emits: +1 for the 0x10 flag, -1 for the 0x20 flag, 0 otherwise. */
  function Emitted(cell: bv8): int
  {
    if cell & PositiveFlag != 0 then 1 else if cell & NegativeFlag != 0 then -1 else 0
  }

  /**
   * Every cell of both tables is well formed: its next row (low nibble) is a
   * row of the same table, it carries at most one of the two flags, and no
   * other bit is set.
   */
  lemma CellWellFormed(t: Table, row: nat, cur: Lines)
    requires row < Rows(t)
    ensures (Cell(t, row, cur) & 0x0F) as nat < Rows(t)
    ensures Cell(t, row, cur) & (PositiveFlag | NegativeFlag) != (PositiveFlag | NegativeFlag)
    ensures Cell(t, row, cur) & 0xC0 == 0
  {
  }

  /** One step of a HALF or FULL machine: the next row and the emitted direction. */
  datatype Transition = Transition(next: nat, direction: int)

  /**
   * The step on reading `cur` in row `row`: the next row is the cell's low
   * nibble, the direction follows the cell's flag. The row stays a valid row.
   */
  function Step(t: Table, row: nat, cur: Lines): (tr: Transition)
    requires row < Rows(t)
    ensures tr.next < Rows(t)
    ensures tr.direction == 1 <==> Cell(t, row, cur) & PositiveFlag != 0
    ensures tr.direction == -1 <==> Cell(t, row, cur) & NegativeFlag != 0
    ensures tr.direction == 0 <==> Cell(t, row, cur) & (PositiveFlag | NegativeFlag) == 0
  {
    CellWellFormed(t, row, cur);
    var cell := Cell(t, row, cur);
    Transition((cell & 0x0F) as nat, Emitted(cell))
  }

  /**
   * The cells that emit a direction are exactly the terminal ones. HALF:
   * +1 from "+ve begin" on 00 and from the second "+ve begin" on 11, -1 from
   * "-ve begin" on 00 and from the second "-ve begin" on 11. FULL: +1 from
   * "+ve end" on 11, -1 from "-ve end" on 11. Each goes to Start on 11 and
   * to Halfway on 00.
   */
  lemma TerminalCells(t: Table, row: nat, cur: Lines)
    requires row < Rows(t)
    ensures Step(t, row, cur).direction == 1 <==>
      if t == Half then (row == 2 && cur == Lines(false, false)) || (row == 4 && cur == Rest)
      else row == 1 && cur == Rest
    ensures Step(t, row, cur).direction == -1 <==>
      if t == Half then (row == 1 && cur == Lines(false, false)) || (row == 5 && cur == Rest)
      else row == 5 && cur == Rest
    ensures Step(t, row, cur).direction != 0 ==>
      (cur == Rest && Step(t, row, cur).next == Start) ||
      (t == Half && cur == Lines(false, false) && Step(t, row, cur).next == Halfway)
  {
  }

  // ---------------------------------------------------------------------------
  // Runs over a sequence of readings
  // ---------------------------------------------------------------------------

  /** The state after a run and the direction written at each reading. */
  datatype Trace<S> = Trace(last: S, emitted: seq<int>)

  /** Feeds `readings` one at a time to a HALF or FULL machine starting in `row`. */
  function Run(t: Table, row: nat, readings: seq<Lines>): (tr: Trace<nat>)
    requires row < Rows(t)
    ensures tr.last < Rows(t)
    ensures |tr.emitted| == |readings|
    ensures forall i :: 0 <= i < |readings| ==> -1 <= tr.emitted[i] <= 1
    decreases |readings|
  {
    if readings == [] then Trace(row, [])
    else
      var first := Step(t, row, readings[0]);
      var rest := Run(t, first.next, readings[1..]);
      Trace(rest.last, [first.direction] + rest.emitted)
  }

  /** A run over two consecutive stretches of readings is the second run continuing from where the first stopped. */
  lemma {:induction false} RunAppend(t: Table, row: nat, s1: seq<Lines>, s2: seq<Lines>)
    requires row < Rows(t)
    ensures Run(t, row, s1 + s2) ==
      Trace(Run(t, Run(t, row, s1).last, s2).last,
            Run(t, row, s1).emitted + Run(t, Run(t, row, s1).last, s2).emitted)
    decreases |s1|
  {
    if s1 == [] {
      assert s1 + s2 == s2;
    } else {
      var first := Step(t, row, s1[0]);
      assert (s1 + s2)[0] == s1[0];
      assert (s1 + s2)[1..] == s1[1..] + s2;
      RunAppend(t, first.next, s1[1..], s2);
      var r1 := Run(t, first.next, s1[1..]);
      var r2 := Run(t, r1.last, s2);
      assert [first.direction] + (r1.emitted + r2.emitted) == ([first.direction] + r1.emitted) + r2.emitted;
    }
  }

  /** Feeds `readings` one at a time to the SIMPLE_TABLE decoder with history `h`. */
  function TableRun(h: bv8, readings: seq<Lines>): (tr: Trace<bv8>)
    requires h < 16
    ensures tr.last < 16
    ensures |tr.emitted| == |readings|
    decreases |readings|
  {
    if readings == [] then Trace(h, [])
    else
      var h' := ShiftHistory(h, readings[0]);
      var rest := TableRun(h', readings[1..]);
      Trace(rest.last, [TableDirection(h')] + rest.emitted)
  }

  /** The table decoder's run over two stretches is the second continuing from the first's history. */
  lemma {:induction false} TableRunAppend(h: bv8, s1: seq<Lines>, s2: seq<Lines>)
    requires h < 16
    ensures TableRun(h, s1 + s2) ==
      Trace(TableRun(TableRun(h, s1).last, s2).last,
            TableRun(h, s1).emitted + TableRun(TableRun(h, s1).last, s2).emitted)
    decreases |s1|
  {
    if s1 == [] {
      assert s1 + s2 == s2;
    } else {
      var h' := ShiftHistory(h, s1[0]);
      assert (s1 + s2)[0] == s1[0];
      assert (s1 + s2)[1..] == s1[1..] + s2;
      TableRunAppend(h', s1[1..], s2);
      var r1 := TableRun(h', s1[1..]);
      var r2 := TableRun(r1.last, s2);
      assert [TableDirection(h')] + (r1.emitted + r2.emitted) == ([TableDirection(h')] + r1.emitted) + r2.emitted;
    }
  }
}

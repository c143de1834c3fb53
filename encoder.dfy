/**
 * The rotencPi decoder state: the persisted history nibble of the table modes,
 * the persisted rows of the HALF and FULL state machines, and the single
 * direction cell `encoderDirection` that every decoder entry point overwrites.
 *
 * Pin readings are arguments: the decoder entry points take no arguments in
 * the driver and read the GPIO lines themselves.
 */
module RotaryEncoder {
  import opened Quadrature
  import opened EncoderTables

  /** The decoder methods of `enum decode_t`. */
  datatype DecodeMode = Simple1 | Simple2 | Simple4 | HalfStep | FullStep

  /** A hardware edge: on line A (otherwise B), rising (otherwise falling). */
  datatype Edge = Edge(onA: bool, rising: bool)

  /**
   * The edges that invoke the decoder in each mode: SIMPLE_1 the rising edge
   * of A, SIMPLE_2 both edges of A, SIMPLE_4, HALF and FULL both edges of A and B.
   */
  predicate Triggers(mode: DecodeMode, e: Edge)
  {
    match mode
    case Simple1 => e.onA && e.rising
    case Simple2 => e.onA
    case Simple4 => true
    case HalfStep => true
    case FullStep => true
  }

  /** SIMPLE_1: the level of B sampled on A's rising edge, high +ve and low -ve; never 0. */
  function SampleDirection(b: bool): (d: int)
    ensures d != 0
    ensures d == 1 <==> b
  {
    if b then 1 else -1
  }

  /**
   * On a clean rising edge of A (B steady), SIMPLE_1 reports the opposite sign
   * to the one SIMPLE_TABLE, and the quadrature reference it agrees with, give
   * to the same transition.
   */
  lemma SampleDirectionOpposesTable(prev: Lines, cur: Lines)
    requires !prev.a && cur.a && prev.b == cur.b
    ensures SampleDirection(cur.b) == -Displacement(prev, cur)
    ensures SampleDirection(cur.b) == -TableDirection(Nibble(prev, cur))
  {
  }

  /**
   * The 2x rule for a decoder invoked on both edges of A only: just after an
   * edge of A, A differing from B means +ve and A equal to B means -ve.
   */
  function TwoXDirection(cur: Lines): (d: int)
    ensures d != 0
    ensures d == 1 <==> cur.a != cur.b
  {
    if cur.a != cur.b then 1 else -1
  }

  /** On every clean edge of A (B steady) the 2x rule gives the quadrature displacement. */
  lemma TwoXDirectionOnAEdges(prev: Lines, cur: Lines)
    requires prev.a != cur.a && prev.b == cur.b
    ensures TwoXDirection(cur) == Displacement(prev, cur)
  {
  }

  class Encoder {
    /** The decoder selected at initialisation (`encoder.mode`). */
    const mode: DecodeMode

    /** The persisted history nibble abAB of the table modes. */
    var history: bv8
    /** The persisted HALF_TABLE row. */
    var halfRow: nat
    /** The persisted FULL_TABLE row. */
    var fullRow: nat
    /** `encoderDirection`: +1, 0 (no change determined) or -1. */
    var direction: int

    /** The readings each persisted state has consumed so far. */
    ghost var tableInput: seq<Lines>
    ghost var halfInput: seq<Lines>
    ghost var fullInput: seq<Lines>

    /** Each persisted state is the state its decoder reaches on the readings it has consumed. */
    ghost predicate Valid()
      reads this
    {
      -1 <= direction <= 1 &&
      history == TableRun(0, tableInput).last &&
      halfRow == Run(Half, Start, halfInput).last &&
      fullRow == Run(Full, Start, fullInput).last
    }

    /** A new decoder: no history, both machines at Start, no direction. */
    constructor (mode: DecodeMode)
      ensures Valid()
      ensures this.mode == mode
      ensures history == 0 && halfRow == Start && fullRow == Start && direction == 0
      ensures tableInput == [] && halfInput == [] && fullInput == []
    {
      this.mode := mode;
      history, halfRow, fullRow, direction := 0, Start, Start, 0;
      tableInput, halfInput, fullInput := [], [], [];
    }

    /** setDirectionSimple: B high gives +1, B low gives -1. */
    method SetDirectionSimple(b: bool)
      requires Valid()
      modifies this`direction
      ensures Valid()
      ensures direction == SampleDirection(b)
    {
      direction := if b then 1 else -1;
    }

    /**
     * setDirectionTable: shift the new reading into the history nibble and
     * write the SIMPLE_TABLE entry, which is the displacement from the
     * previous reading to this one.
     */
    method SetDirectionTable(cur: Lines)
      requires Valid()
      modifies this`history, this`direction, this`tableInput
      ensures Valid()
      ensures tableInput == old(tableInput) + [cur]
      ensures history == ShiftHistory(old(history), cur)
      ensures direction == TableDirection(history)
      ensures direction == Displacement(Decode(old(history)), cur)
      ensures direction == TableRun(0, tableInput).emitted[|tableInput| - 1]
    {
      TableRunAppend(0, tableInput, [cur]);
      SimpleTableIsDisplacement(Decode(history), cur);
      history := ((history << 2) | Code(cur)) & 0x0F;
      direction := SimpleTable[history as int];
      tableInput := tableInput + [cur];
    }

    /**
     * A corrected SIMPLE_2 decoder, not the driver's: the 2x rule on an edge
     * of A (see README, Findings). `OnEdge` runs the driver's table lookup.
     */
    method SetDirectionTwoX(cur: Lines)
      requires Valid()
      modifies this`direction
      ensures Valid()
      ensures direction == TwoXDirection(cur)
    {
      direction := if cur.a != cur.b then 1 else -1;
    }

    /**
     * setDirectionHalf: step HALF_TABLE from the persisted row; the row becomes
     * the cell's low nibble and the direction follows the cell's flag.
     */
    method SetDirectionHalf(cur: Lines)
      requires Valid()
      modifies this`halfRow, this`direction, this`halfInput
      ensures Valid()
      ensures halfInput == old(halfInput) + [cur]
      ensures halfRow == Step(Half, old(halfRow), cur).next
      ensures direction == Step(Half, old(halfRow), cur).direction
      ensures direction == Run(Half, Start, halfInput).emitted[|halfInput| - 1]
    {
      RunAppend(Half, Start, halfInput, [cur]);
      CellWellFormed(Half, halfRow, cur);
      var cell := HalfTable[halfRow][Code(cur) as int];
      halfRow := (cell & 0x0F) as nat;
      direction := if cell & 0x10 != 0 then 1 else if cell & 0x20 != 0 then -1 else 0;
      halfInput := halfInput + [cur];
    }

    /**
     * setDirectionFull: step FULL_TABLE from the persisted row; the row becomes
     * the cell's low nibble and the direction follows the cell's flag.
     */
    method SetDirectionFull(cur: Lines)
      requires Valid()
      modifies this`fullRow, this`direction, this`fullInput
      ensures Valid()
      ensures fullInput == old(fullInput) + [cur]
      ensures fullRow == Step(Full, old(fullRow), cur).next
      ensures direction == Step(Full, old(fullRow), cur).direction
      ensures direction == Run(Full, Start, fullInput).emitted[|fullInput| - 1]
    {
      RunAppend(Full, Start, fullInput, [cur]);
      CellWellFormed(Full, fullRow, cur);
      var cell := FullTable[fullRow][Code(cur) as int];
      fullRow := (cell & 0x0F) as nat;
      direction := if cell & 0x10 != 0 then 1 else if cell & 0x20 != 0 then -1 else 0;
      fullInput := fullInput + [cur];
    }

    /**
     * The interrupt for edge `e`, after which the lines read `cur`: when the
     * selected mode listens to that edge its decoder runs, otherwise nothing
     * changes. SIMPLE_2 and SIMPLE_4 both run the SIMPLE_TABLE lookup; they
     * differ only in the edges they listen to.
     */
    method OnEdge(e: Edge, cur: Lines)
      requires Valid()
      modifies this
      ensures Valid()
      ensures !Triggers(mode, e) ==> unchanged(this)
      ensures Triggers(mode, e) && mode == Simple1 ==> direction == SampleDirection(cur.b)
      ensures Triggers(mode, e) && mode in {Simple2, Simple4} ==>
        tableInput == old(tableInput) + [cur] &&
        history == ShiftHistory(old(history), cur) && direction == TableDirection(history) &&
        direction == Displacement(Decode(old(history)), cur)
      ensures Triggers(mode, e) && mode == HalfStep ==>
        halfInput == old(halfInput) + [cur] &&
        halfRow == Step(Half, old(halfRow), cur).next && direction == Step(Half, old(halfRow), cur).direction
      ensures Triggers(mode, e) && mode == FullStep ==>
        fullInput == old(fullInput) + [cur] &&
        fullRow == Step(Full, old(fullRow), cur).next && direction == Step(Full, old(fullRow), cur).direction
      ensures mode !in {Simple2, Simple4} ==> history == old(history) && tableInput == old(tableInput)
      ensures mode != HalfStep ==> halfRow == old(halfRow) && halfInput == old(halfInput)
      ensures mode != FullStep ==> fullRow == old(fullRow) && fullInput == old(fullInput)
    {
      if Triggers(mode, e) {
        match mode
        case Simple1 => SetDirectionSimple(cur.b);
        case Simple2 => SetDirectionTable(cur);
        case Simple4 => SetDirectionTable(cur);
        case HalfStep => SetDirectionHalf(cur);
        case FullStep => SetDirectionFull(cur);
      }
    }
  }
}

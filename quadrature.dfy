/**
 * Quadrature encoding of a rotary encoder: the two lines A and B, the code AB
 * that indexes the decoding tables, and the reference meaning of a transition
 * between two readings (one quarter-cycle forward, backward, or undetermined).
 *
 * The forward (+ve) cycle is the one the header's transition table lists as
 * +ve: 00 -> 10 -> 11 -> 01 -> 00 (rotencPi/rotencPi.h:52-61).
 */
module Quadrature {

  /** One sample of the encoder lines: true is a high level. */
  datatype Lines = Lines(a: bool, b: bool)

  /** The code AB of a reading, A the high bit: the column index of the tables. */
  function Code(l: Lines): (c: bv8)
    ensures c < 4
    ensures (c & 2 == 2) == l.a && (c & 1 == 1) == l.b
  {
    (if l.a then 2 else 0) | (if l.b then 1 else 0)
  }

  /** The reading whose code is the low two bits of `h` (the inverse of Code). */
  function Decode(h: bv8): (l: Lines)
    ensures Code(l) == h & 3
  {
    Lines(h & 2 == 2, h & 1 == 1)
  }

  /** Decoding a code gives back the reading it was made from. */
  lemma DecodeCode(l: Lines)
    ensures Decode(Code(l)) == l
  {
  }

  /** The reading that follows `l` one quarter-cycle in the +ve direction. */
  function Forward(l: Lines): (n: Lines)
    ensures (n.a == l.a) != (n.b == l.b)
  {
    match l
    case Lines(false, false) => Lines(true, false)
    case Lines(true, false) => Lines(true, true)
    case Lines(true, true) => Lines(false, true)
    case Lines(false, true) => Lines(false, false)
  }

  /** The reading that precedes `l` one quarter-cycle, i.e. one -ve step. */
  function Backward(l: Lines): (p: Lines)
    ensures Forward(p) == l
  {
    match l
    case Lines(true, false) => Lines(false, false)
    case Lines(true, true) => Lines(true, false)
    case Lines(false, true) => Lines(true, true)
    case Lines(false, false) => Lines(false, true)
  }

  /**
   * The rotation a transition `prev` -> `cur` stands for: +1 for one forward
   * quarter-cycle, -1 for one backward quarter-cycle, 0 when nothing changed
   * or when both lines changed at once (the direction cannot be told).
   */
  function Displacement(prev: Lines, cur: Lines): (d: int)
    ensures d == 1 <==> cur == Forward(prev)
    ensures d == -1 <==> cur == Backward(prev)
    ensures d == 0 <==> (prev.a == cur.a) == (prev.b == cur.b)
  {
    if cur == Forward(prev) then 1 else if cur == Backward(prev) then -1 else 0
  }

  /** Retracing a transition reverses its displacement. */
  lemma DisplacementAntisymmetric(prev: Lines, cur: Lines)
    ensures Displacement(cur, prev) == -Displacement(prev, cur)
  {
  }

  /** The rest position of a detent encoder: both lines high. */
  const Rest := Lines(true, true)

  /** The readings of one clean +ve detent, starting from and ending at rest. */
  const ClockwiseDetent: seq<Lines> :=
    [Lines(false, true), Lines(false, false), Lines(true, false), Lines(true, true)]

  /** The readings of one clean -ve detent, starting from and ending at rest. */
  const CounterClockwiseDetent: seq<Lines> :=
    [Lines(true, false), Lines(false, false), Lines(false, true), Lines(true, true)]

  /** The reading before position `i` of a walk that starts at `start`. */
  function Before(start: Lines, s: seq<Lines>, i: nat): Lines
    requires i <= |s|
  {
    if i == 0 then start else s[i - 1]
  }

  /** `s` is a walk whose every reading is one quarter-cycle from the one before it, in the direction `dir`. */
  ghost predicate CleanWalk(start: Lines, s: seq<Lines>, dir: int)
  {
    forall i :: 0 <= i < |s| ==> Displacement(Before(start, s, i), s[i]) == dir
  }

  /** The detent sequences are the clean four-step walks around the cycle. */
  lemma DetentsAreCleanWalks()
    ensures CleanWalk(Rest, ClockwiseDetent, 1)
    ensures CleanWalk(Rest, CounterClockwiseDetent, -1)
    ensures ClockwiseDetent[3] == Rest && CounterClockwiseDetent[3] == Rest
  {
  }
}

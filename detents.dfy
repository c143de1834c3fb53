/**
 * What the decoders report over sequences of readings: one detent at a time,
 * many detents in a row, contact bounce, and the edges a mode listens to.
 */
module DetentProperties {
  import opened Quadrature
  import opened EncoderTables
  import opened RotaryEncoder

  /** `n` copies of `s`, one after the other. */
  function Repeat<T>(s: seq<T>, n: nat): (r: seq<T>)
    ensures |r| == n * |s|
  {
    if n == 0 then [] else s + Repeat(s, n - 1)
  }

  /** The net rotation reported by a sequence of directions. */
  function Net(s: seq<int>): int
  {
    if s == [] then 0 else s[0] + Net(s[1..])
  }

  /** The net of a concatenation is the sum of the nets. */
  lemma {:induction false} NetAppend(s1: seq<int>, s2: seq<int>)
    ensures Net(s1 + s2) == Net(s1) + Net(s2)
    decreases |s1|
  {
    if s1 == [] {
      assert s1 + s2 == s2;
    } else {
      assert (s1 + s2)[0] == s1[0];
      assert (s1 + s2)[1..] == s1[1..] + s2;
      NetAppend(s1[1..], s2);
    }
  }

  /** Repeating a sequence of directions `n` times multiplies its net by `n`. */
  lemma {:induction false} NetRepeat(s: seq<int>, n: nat)
    ensures Net(Repeat(s, n)) == n * Net(s)
  {
    if n > 0 {
      NetAppend(s, Repeat(s, n - 1));
      NetRepeat(s, n - 1);
    }
  }

  // ---------------------------------------------------------------------------
  // One detent
  // ---------------------------------------------------------------------------

  /**
   * FULL: one clean +ve detent from Start emits +1 once, on the final reading
   * 11, and ends at Start; one clean -ve detent emits -1 once, likewise.
   */
  lemma FullDetent()
    ensures Run(Full, Start, ClockwiseDetent) == Trace(Start, [0, 0, 0, 1])
    ensures Run(Full, Start, CounterClockwiseDetent) == Trace(Start, [0, 0, 0, -1])
  {
  }

  /**
   * HALF: one clean +ve detent from Start emits +1 at the half step (reading
   * 00) and again at the final 11, ending at Start; a -ve detent emits -1 at
   * the same two points.
   */
  lemma HalfDetent()
    ensures Run(Half, Start, ClockwiseDetent) == Trace(Start, [0, 1, 0, 1])
    ensures Run(Half, Start, CounterClockwiseDetent) == Trace(Start, [0, -1, 0, -1])
  {
  }

  /** SIMPLE_4: one clean detent from rest emits the direction at every one of its four readings. */
  lemma TableDetent()
    ensures TableRun(Code(Rest), ClockwiseDetent).last & 3 == Code(Rest)
    ensures TableRun(Code(Rest), ClockwiseDetent).emitted == [1, 1, 1, 1]
    ensures TableRun(Code(Rest), CounterClockwiseDetent).last & 3 == Code(Rest)
    ensures TableRun(Code(Rest), CounterClockwiseDetent).emitted == [-1, -1, -1, -1]
  {
    DetentsAreCleanWalks();
    TableOnCleanWalk(Rest, ClockwiseDetent, 1);
    TableOnCleanWalk(Rest, CounterClockwiseDetent, -1);
    TableRunLast(Code(Rest), ClockwiseDetent);
    TableRunLast(Code(Rest), CounterClockwiseDetent);
  }

  /** After a nonempty run the history ends in the code of the last reading. */
  lemma {:induction false} TableRunLast(h: bv8, s: seq<Lines>)
    requires h < 16 && s != []
    ensures TableRun(h, s).last & 3 == Code(s[|s| - 1])
    decreases |s|
  {
    if |s| > 1 {
      TableRunLast(ShiftHistory(h, s[0]), s[1..]);
    }
  }

  // ---------------------------------------------------------------------------
  // Many detents
  // ---------------------------------------------------------------------------

  /** A sequence that a machine runs from Start back to Start can be repeated any number of times. */
  lemma {:induction false} RepeatedFromStart(t: Table, s: seq<Lines>, out: seq<int>, n: nat)
    requires Run(t, Start, s) == Trace(Start, out)
    ensures Run(t, Start, Repeat(s, n)) == Trace(Start, Repeat(out, n))
  {
    if n > 0 {
      RunAppend(t, Start, s, Repeat(s, n - 1));
      RepeatedFromStart(t, s, out, n - 1);
    }
  }

  /** Hence its net report over `n` repetitions is `n` times the net of one. */
  lemma NetFromStart(t: Table, s: seq<Lines>, out: seq<int>, n: nat)
    requires Run(t, Start, s) == Trace(Start, out)
    ensures Run(t, Start, Repeat(s, n)).last == Start
    ensures Net(Run(t, Start, Repeat(s, n)).emitted) == n * Net(out)
  {
    RepeatedFromStart(t, s, out, n);
    NetRepeat(out, n);
  }

  /**
   * Resolution of the state machines over `n` clean detents: FULL reports a
   * net of exactly n (or -n) and is back at Start.
   */
  lemma FullDetentCounts(n: nat)
    ensures Run(Full, Start, Repeat(ClockwiseDetent, n)).last == Start
    ensures Run(Full, Start, Repeat(CounterClockwiseDetent, n)).last == Start
    ensures Net(Run(Full, Start, Repeat(ClockwiseDetent, n)).emitted) == n
    ensures Net(Run(Full, Start, Repeat(CounterClockwiseDetent, n)).emitted) == -(n as int)
  {
    FullDetent();
    assert Net([0, 0, 0, 1]) == 1 && Net([0, 0, 0, -1]) == -1;
    NetFromStart(Full, ClockwiseDetent, [0, 0, 0, 1], n);
    NetFromStart(Full, CounterClockwiseDetent, [0, 0, 0, -1], n);
  }

  /** See FullDetentCounts: HALF reports a net of exactly 2n (or -2n). */
  lemma HalfDetentCounts(n: nat)
    ensures Run(Half, Start, Repeat(ClockwiseDetent, n)).last == Start
    ensures Run(Half, Start, Repeat(CounterClockwiseDetent, n)).last == Start
    ensures Net(Run(Half, Start, Repeat(ClockwiseDetent, n)).emitted) == 2 * n
    ensures Net(Run(Half, Start, Repeat(CounterClockwiseDetent, n)).emitted) == -2 * n
  {
    HalfDetent();
    assert Net([0, 1, 0, 1]) == 2 && Net([0, -1, 0, -1]) == -2;
    NetFromStart(Half, ClockwiseDetent, [0, 1, 0, 1], n);
    NetFromStart(Half, CounterClockwiseDetent, [0, -1, 0, -1], n);
  }

  /**
   * SIMPLE_4 decodes every reading of any walk: the direction written at each
   * reading is the displacement from the reading before it.
   */
  lemma {:induction false} TableRunIsDisplacement(start: Lines, s: seq<Lines>)
    ensures forall i :: 0 <= i < |s| ==>
      TableRun(Code(start), s).emitted[i] == Displacement(Before(start, s, i), s[i])
    decreases |s|
  {
    if s != [] {
      SimpleTableIsDisplacement(start, s[0]);
      TableRunIsDisplacement(s[0], s[1..]);
      forall i | 1 <= i < |s|
        ensures TableRun(Code(start), s).emitted[i] == Displacement(Before(start, s, i), s[i])
      {
        assert Before(s[0], s[1..], i - 1) == Before(start, s, i);
      }
    }
  }

  /** Hence on a clean walk SIMPLE_4 reports the walk's direction at every reading (4x resolution). */
  lemma TableOnCleanWalk(start: Lines, s: seq<Lines>, dir: int)
    requires CleanWalk(start, s, dir)
    ensures forall i :: 0 <= i < |s| ==> TableRun(Code(start), s).emitted[i] == dir
  {
    TableRunIsDisplacement(start, s);
  }

  /**
   * Whatever the readings, the state machines report a direction only on
   * arriving at a detent (11, back at Start) or, for HALF, at the half-detent
   * (00, at Halfway).
   */
  lemma {:induction false} EmissionsAtDetents(t: Table, row: nat, s: seq<Lines>)
    requires row < Rows(t)
    ensures forall i :: 0 <= i < |s| && Run(t, row, s).emitted[i] != 0 ==>
      s[i] == Rest || (t == Half && s[i] == Lines(false, false))
    decreases |s|
  {
    if s != [] {
      var first := Step(t, row, s[0]);
      TerminalCells(t, row, s[0]);
      EmissionsAtDetents(t, first.next, s[1..]);
      forall i | 1 <= i < |s| && Run(t, row, s).emitted[i] != 0
        ensures s[i] == Rest || (t == Half && s[i] == Lines(false, false))
      {
        assert Run(t, row, s).emitted[i] == Run(t, first.next, s[1..]).emitted[i - 1];
        assert s[i] == s[1..][i - 1];
      }
    }
  }

  // ---------------------------------------------------------------------------
  // Contact bounce
  // ---------------------------------------------------------------------------

  /**
   * `rows` are rows of `t` that the readings `inputs` never lead out of, and
   * no step between them emits a direction.
   */
  ghost predicate SilentlyClosed(t: Table, rows: set<nat>, inputs: set<Lines>)
  {
    (forall r :: r in rows ==> r < Rows(t)) &&
    forall r, l :: r in rows && l in inputs && r < Rows(t) ==>
      Step(t, r, l).next in rows && Step(t, r, l).direction == 0
  }

  /** Any run of such readings from such a row emits nothing and stays among those rows. */
  lemma {:induction false} ChatterIsSilent(t: Table, rows: set<nat>, inputs: set<Lines>, row: nat, s: seq<Lines>)
    requires SilentlyClosed(t, rows, inputs)
    requires row in rows
    requires forall i :: 0 <= i < |s| ==> s[i] in inputs
    ensures row < Rows(t)
    ensures Run(t, row, s).last in rows
    ensures forall i :: 0 <= i < |s| ==> Run(t, row, s).emitted[i] == 0
    decreases |s|
  {
    if s != [] {
      var first := Step(t, row, s[0]);
      ChatterIsSilent(t, rows, inputs, first.next, s[1..]);
    }
  }

  /** A bounce on line A at rest (readings 11 and 01 only). */
  const ChatterOnA: set<Lines> := {Rest, Lines(false, true)}
  /** A bounce on line B at rest (readings 11 and 10 only). */
  const ChatterOnB: set<Lines> := {Rest, Lines(true, false)}

  /** The rows the two machines visit while one line bounces at rest. */
  lemma RestChatterClosed()
    ensures SilentlyClosed(Full, {0, 2}, ChatterOnA)
    ensures SilentlyClosed(Full, {0, 4}, ChatterOnB)
    ensures SilentlyClosed(Half, {0, 2}, ChatterOnA)
    ensures SilentlyClosed(Half, {0, 1}, ChatterOnB)
  {
  }

  /** HALF's half-detent: a bounce of one line while at 00 in row Halfway. */
  lemma HalfwayChatterClosed()
    ensures SilentlyClosed(Half, {3, 5}, {Lines(false, false), Lines(false, true)})
    ensures SilentlyClosed(Half, {3, 4}, {Lines(false, false), Lines(true, false)})
  {
  }

  /**
   * Bounce immunity of both machines: from Start, any sequence of readings in
   * which only one line moves (11 and 01, or 11 and 10) emits no direction,
   * however long it bounces; the same holds for HALF around the half-detent.
   */
  lemma BounceImmunity(t: Table, s: seq<Lines>, onA: bool)
    requires forall i :: 0 <= i < |s| ==> s[i] in (if onA then ChatterOnA else ChatterOnB)
    ensures forall i :: 0 <= i < |s| ==> Run(t, Start, s).emitted[i] == 0
  {
    RestChatterClosed();
    var rows: set<nat> := if onA then {0, 2} else if t == Full then {0, 4} else {0, 1};
    ChatterIsSilent(t, rows, if onA then ChatterOnA else ChatterOnB, Start, s);
  }

  /** HALF around the half-detent: from Halfway, one line bouncing at 00 emits no direction. */
  lemma HalfwayBounceImmunity(s: seq<Lines>, onA: bool)
    requires forall i :: 0 <= i < |s| ==>
      s[i] in (if onA then {Lines(false, false), Lines(true, false)} else {Lines(false, false), Lines(false, true)})
    ensures forall i :: 0 <= i < |s| ==> Run(Half, Halfway, s).emitted[i] == 0
  {
    HalfwayChatterClosed();
    if onA {
      ChatterIsSilent(Half, {3, 4}, {Lines(false, false), Lines(true, false)}, Halfway, s);
    } else {
      ChatterIsSilent(Half, {3, 5}, {Lines(false, false), Lines(false, true)}, Halfway, s);
    }
  }

  /** The single bounce-back: from Start, 01 then 11 (or 10 then 11) is back at Start with nothing emitted. */
  lemma BounceBack(t: Table)
    ensures Run(t, Start, [Lines(false, true), Rest]) == Trace(Start, [0, 0])
    ensures Run(t, Start, [Lines(true, false), Rest]) == Trace(Start, [0, 0])
  {
    var up, down := [Lines(false, true), Rest], [Lines(true, false), Rest];
    assert up[1..] == [Rest] && down[1..] == [Rest];
    var rowUp, rowDown := 2, if t == Half then 1 else 4;
    assert Step(t, Start, Lines(false, true)) == Transition(rowUp, 0);
    assert Step(t, Start, Lines(true, false)) == Transition(rowDown, 0);
    assert Step(t, rowUp, Rest) == Transition(Start, 0);
    assert Step(t, rowDown, Rest) == Transition(Start, 0);
    assert [Rest][1..] == [];
    assert Run(t, rowUp, [Rest]) == Trace(Start, [0]);
    assert Run(t, rowDown, [Rest]) == Trace(Start, [0]);
  }

  // ---------------------------------------------------------------------------
  // SIMPLE_2: the decoder invoked on the edges of A only
  // ---------------------------------------------------------------------------

  /** The readings just after the two edges of A in one clean +ve detent: A falls (01), A rises (10). */
  const ClockwiseAEdges: seq<Lines> := [Lines(false, true), Lines(true, false)]
  /** The readings just after the two edges of A in one clean -ve detent: A falls (00), A rises (11). */
  const CounterClockwiseAEdges: seq<Lines> := [Lines(false, false), Rest]

  /** These are the readings of the detents at which A changes. */
  lemma AEdgesOfDetents()
    ensures ClockwiseAEdges == [ClockwiseDetent[0], ClockwiseDetent[2]]
    ensures ClockwiseDetent[0].a != Rest.a && ClockwiseDetent[2].a != ClockwiseDetent[1].a
    ensures ClockwiseDetent[1].a == ClockwiseDetent[0].a && ClockwiseDetent[3].a == ClockwiseDetent[2].a
    ensures CounterClockwiseAEdges == [CounterClockwiseDetent[1], CounterClockwiseDetent[3]]
    ensures CounterClockwiseDetent[1].a != CounterClockwiseDetent[0].a && CounterClockwiseDetent[3].a != CounterClockwiseDetent[2].a
    ensures CounterClockwiseDetent[0].a == Rest.a && CounterClockwiseDetent[2].a == CounterClockwiseDetent[1].a
  {
  }

  /**
   * SIMPLE_TABLE looked up on samples that alternate between two readings
   * differing in both lines writes 0 at every sample, however long it runs.
   */
  lemma {:induction false} TwoBitJumpsAreBlind(h: bv8, x: Lines, y: Lines, n: nat)
    requires h < 16 && Decode(h) == y
    requires x.a != y.a && x.b != y.b
    ensures TableRun(h, Repeat([x, y], n)).emitted == Repeat([0, 0], n)
    ensures Decode(TableRun(h, Repeat([x, y], n)).last) == y
    decreases n
  {
    if n == 0 {
      assert Repeat([x, y], n) == [];
    } else {
      var pair := [x, y];
      assert pair[1..] == [y];
      ShiftHistoryLastReading(h, x);
      SimpleTableIsDisplacement(y, x);
      var hx := ShiftHistory(h, x);
      ShiftHistoryLastReading(hx, y);
      SimpleTableIsDisplacement(x, y);
      assert [y][1..] == [];
      assert TableRun(hx, [y]) == Trace(ShiftHistory(hx, y), [0]);
      assert TableRun(h, pair) == Trace(ShiftHistory(hx, y), [0, 0]);
      TableRunAppend(h, pair, Repeat(pair, n - 1));
      TwoBitJumpsAreBlind(ShiftHistory(hx, y), x, y, n - 1);
    }
  }

  /**
   * SIMPLE_TABLE looked up on the edges of A only, as SIMPLE_2 is described:
   * in steady rotation in either direction consecutive samples differ in both
   * lines, so the decoder writes 0 at every edge, over any number of detents.
   */
  lemma Simple2TableIsBlind(n: nat)
    ensures TableRun(Code(Lines(true, false)), Repeat(ClockwiseAEdges, n)).emitted == Repeat([0, 0], n)
    ensures TableRun(Code(Rest), Repeat(CounterClockwiseAEdges, n)).emitted == Repeat([0, 0], n)
  {
    TwoBitJumpsAreBlind(Code(Lines(true, false)), Lines(false, true), Lines(true, false), n);
    TwoBitJumpsAreBlind(Code(Rest), Lines(false, false), Rest, n);
  }

  /** The 2x rule on the same edges reports +1 twice per +ve detent and -1 twice per -ve detent. */
  lemma TwoXOnDetents()
    ensures forall l :: l in ClockwiseAEdges ==> TwoXDirection(l) == 1
    ensures forall l :: l in CounterClockwiseAEdges ==> TwoXDirection(l) == -1
  {
  }
}

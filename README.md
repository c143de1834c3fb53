# rotencPi quadrature decoder, modelled in Dafny

rotencPi is a rotary-encoder driver for the Raspberry Pi. An interrupt on an edge of
line A or B runs one of five decoders (`enum decode_t`). The decoder writes the
single cell `encoderDirection`: +1 for a +ve step, 0 for "no change determined", -1
for a -ve step.

- **SIMPLE_1** samples B on the rising edge of A.
- **SIMPLE_2** and **SIMPLE_4** form the history nibble `abAB` (a and b are the previous
  readings, A and B the current ones) and look it up in the 16-entry `SIMPLE_TABLE`.
- **HALF** and **FULL** step Ben Buxton's debounced transition tables, `HALF_TABLE` (6x4)
  and `FULL_TABLE` (7x4). The column of a cell is the current reading AB. Its low nibble
  is the next row. Its flag 0x10 or 0x20 emits +ve or -ve.

The project has four files:

- `quadrature.dfy` (module `Quadrature`): a reading of the two lines and its code AB.
  It also holds an independent reference meaning of a transition (`Displacement`:
  one quarter-cycle forward, backward, or undetermined) and the clean detent walks.
- `tables.dfy` (module `EncoderTables`): the three tables as constant data, and the pure
  step rules over them: `ShiftHistory`, `TableDirection`, `Step`. It also defines runs
  over sequences of readings (`Run`, `TableRun`) and the exhaustive facts about every
  nibble and every cell.
- `encoder.dfy` (module `RotaryEncoder`): `DecodeMode`, the edges each mode listens to,
  and the class `Encoder`. The class holds the persisted history nibble, the persisted
  HALF and FULL rows and the direction cell. It has one method per `setDirection*` entry
  point, and `OnEdge` for the interrupt dispatch. Ghost fields log the readings each
  decoder has consumed. `Valid()` states that each persisted state is the state its
  decoder reaches on that log.
- `detents.dfy` (module `DetentProperties`): what the decoders report over sequences:
  - one detent, and any number of detents;
  - bounce immunity;
  - that the machines report only at a detent or half-detent;
  - the behaviour of the SIMPLE_2 table lookup (see Findings).

Pin levels are method arguments. The header's entry points take no arguments and read
the GPIO lines themselves.

The header's comments disagree on sign. SIMPLE_1 reports +ve when B is high on A's
rising edge (rotencPi/rotencPi.h:69-70). The transition table of the same comment
(rotencPi/rotencPi.h:52-61) gives -ve for that same transition, abAB = 0x7. SIMPLE_TABLE,
HALF and FULL all agree with that transition table. The model keeps SIMPLE_1 as the
header states it. `RotaryEncoder.SampleDirectionOpposesTable` proves that SIMPLE_1's
sign is opposite to the table's on every clean rising edge of A.

The driver's `.c` file is not part of this model, so a few behaviours are inferred from
the header:

- HALF and FULL write 0 when the cell carries no flag ("0: no change determined",
  rotencPi/rotencPi.h:196-201).
- The table decoder writes the table entry, 0 included, at every call.
- Each state starts zeroed: history 0 and both machines at Start (row 0), as static
  C storage is.
- HALF and FULL keep separate rows, one per entry point.

## Model

| member | source | states |
|---|---|---|
| `Quadrature.Code` | rotencPi/rotencPi.h:112-115 | the column index of a reading is AB with A as the high bit, and it determines both line levels |
| `Quadrature.Forward` | rotencPi/rotencPi.h:52-61 | the +ve successor of a reading changes exactly one line (00→10→11→01→00) |
| `Quadrature.Backward` | rotencPi/rotencPi.h:58-61 | the -ve step is the inverse of the +ve one; `Displacement` uses it for -1 |
| `Quadrature.Displacement` | rotencPi/rotencPi.h:47-65 | a transition is +1 exactly when it is the +ve step (`Forward`), -1 exactly when it is the -ve step (`Backward`), and 0 exactly when no line or both lines changed |
| `Quadrature.DisplacementAntisymmetric` | rotencPi/rotencPi.h:52-61 | retracing a transition reverses its direction |
| `Quadrature.DecodeCode` | rotencPi/rotencPi.h:112-115 | decoding a column index gives back the reading |
| `Quadrature.DetentsAreCleanWalks` | rotencPi/rotencPi.h:47-61 | the detent sequences 01,00,10,11 and 10,00,01,11 are clean +ve and -ve walks from rest 11 back to rest |
| `EncoderTables.ShiftHistory` | rotencPi/rotencPi.h:64-65 | the new history nibble keeps the previous AB in bits 3-2 (ab) and the new reading in bits 1-0 (AB) |
| `EncoderTables.ShiftHistoryLastReading` | rotencPi/rotencPi.h:64-65 | shifting a reading into the history forms the nibble of the transition from the history's last reading |
| `EncoderTables.NibbleOfEveryTransition` | rotencPi/rotencPi.h:86 | every one of the 16 nibbles is the nibble of exactly one transition: ab is the previous reading, AB the current one |
| `EncoderTables.SimpleTableIsDisplacement` | rotencPi/rotencPi.h:49-92 | for all 16 transitions SIMPLE_TABLE equals the quadrature reference: +1 on the four +ve transitions, -1 on the four -ve ones, else 0 |
| `EncoderTables.SimpleTableEntries` | rotencPi/rotencPi.h:88-92 | every entry is in {-1,0,+1}; 0 exactly on 0x0,0x5,0xa,0xf and 0x3,0x6,0x9,0xc; +1 exactly on 0x2,0xb,0xd,0x4; -1 exactly on 0xe,0x8,0x1,0x7 |
| `EncoderTables.CellWellFormed` | rotencPi/rotencPi.h:152-171 | in all 24 HALF and 28 FULL cells the next row is < 6 and < 7 respectively, no cell carries both flags, and no other bit is set |
| `EncoderTables.Step` | rotencPi/rotencPi.h:106-108 | a step keeps the row valid and emits +1 exactly when the cell carries 0x10, -1 exactly when it carries 0x20, and 0 exactly when it carries neither |
| `EncoderTables.TerminalCells` | rotencPi/rotencPi.h:110-139 | the emitting cells are exactly HALF's two +ve/-ve begin cells on 00 and its two terminal cells on 11, and FULL's +ve end and -ve end cells on 11; each leads to Start on 11 or Halfway on 00 |
| `EncoderTables.Run` | rotencPi/rotencPi.h:106-108 | over any sequence of readings the persisted row stays a valid row and every emitted value is in {-1,0,+1} |
| `EncoderTables.RunAppend` | rotencPi/rotencPi.h:106-108 | the machine's state carries over: a run over two stretches is the second continuing from the first's final row |
| `EncoderTables.TableRun` | rotencPi/rotencPi.h:83-86 | the table decoder's history stays a nibble and it writes one value per reading |
| `EncoderTables.TableRunAppend` | rotencPi/rotencPi.h:64-65 | the table decoder's history carries over between stretches of readings |
| `RotaryEncoder.SampleDirection` | rotencPi/rotencPi.h:69-72 | SIMPLE_1 gives +1 exactly when B is high, otherwise -1, never 0 |
| `RotaryEncoder.SampleDirectionOpposesTable` | rotencPi/rotencPi.h:47-72 | on a clean rising edge of A, SIMPLE_1's sign is opposite to SIMPLE_TABLE's and to the +ve/-ve transition table's |
| `RotaryEncoder.TwoXDirection` | rotencPi/rotencPi.h:83 | corrected SIMPLE_2 rule: +1 exactly when A differs from B after the edge, otherwise -1 |
| `RotaryEncoder.TwoXDirectionOnAEdges` | rotencPi/rotencPi.h:83 | on every clean edge of A the corrected SIMPLE_2 rule gives the quadrature direction |
| `RotaryEncoder.Encoder.constructor` | rotencPi/rotencPi.h:176-189 | a new decoder has the chosen mode, an empty history, both machines at Start and direction 0 |
| `RotaryEncoder.Encoder.SetDirectionSimple` | rotencPi/rotencPi.h:203-205 | the direction becomes +1 if B is high, -1 if low; nothing else changes |
| `RotaryEncoder.Encoder.SetDirectionTable` | rotencPi/rotencPi.h:207-210 | the history shifts in the reading; the direction becomes the SIMPLE_TABLE entry, which is the displacement from the previous reading; the history remains the result of all readings so far |
| `RotaryEncoder.Encoder.SetDirectionTwoX` | rotencPi/rotencPi.h:83 | corrected SIMPLE_2 entry point, not used by `OnEdge`: the direction becomes the 2x rule's value |
| `RotaryEncoder.Encoder.SetDirectionHalf` | rotencPi/rotencPi.h:212-215 | the HALF row advances by one step of HALF_TABLE and the direction becomes that step's flag; the row remains the state HALF reaches on all readings so far |
| `RotaryEncoder.Encoder.SetDirectionFull` | rotencPi/rotencPi.h:217-220 | as for HALF, with FULL_TABLE |
| `RotaryEncoder.Encoder.OnEdge` | rotencPi/rotencPi.h:72-104 | an edge runs the selected decoder only if the mode listens to it (SIMPLE_1 A rising, SIMPLE_2 both edges of A, others both edges of A and B); other edges change nothing. SIMPLE_2 and SIMPLE_4 run the one SIMPLE_TABLE lookup: the history shifts in the reading and the direction is the table entry. HALF and FULL step their own row. Each triggered decoder appends the reading to its own log, so `Valid()` and the run lemmas hold over any sequence of interrupts; each decoder touches only its own state |
| `DetentProperties.FullDetent` | rotencPi/rotencPi.h:125-139 | from Start, 01,00,10,11 emits exactly one +1, on the last reading, and ends at Start; 10,00,01,11 likewise emits one -1 |
| `DetentProperties.HalfDetent` | rotencPi/rotencPi.h:110-123 | from Start, 01,00,10,11 emits +1 at 00 and at 11 and ends at Start; 10,00,01,11 emits -1 at the same two points |
| `DetentProperties.TableDetent` | rotencPi/rotencPi.h:84-92 | SIMPLE_4 reports the direction at all four readings of a clean detent |
| `DetentProperties.RepeatedFromStart` | rotencPi/rotencPi.h:106-108 | a reading sequence that brings a machine from Start back to Start reports the same values each time it is repeated |
| `DetentProperties.NetFromStart` | rotencPi/rotencPi.h:106-108 | such a sequence repeated n times reports n times its net and ends at Start |
| `DetentProperties.FullDetentCounts` | rotencPi/rotencPi.h:104 | over n clean detents FULL reports a net of exactly n (-n for -ve) and is back at Start |
| `DetentProperties.HalfDetentCounts` | rotencPi/rotencPi.h:103 | over n clean detents HALF reports a net of exactly 2n (-2n for -ve) and is back at Start |
| `DetentProperties.TableRunIsDisplacement` | rotencPi/rotencPi.h:84-92 | for any sequence of readings, SIMPLE_4 writes at each reading the displacement from the reading before it |
| `DetentProperties.TableOnCleanWalk` | rotencPi/rotencPi.h:84 | on any clean walk SIMPLE_4 reports the walk's direction at every reading (4x resolution) |
| `DetentProperties.EmissionsAtDetents` | rotencPi/rotencPi.h:103-139 | for any readings, HALF and FULL report a direction only on reading 11, or for HALF also 00 |
| `DetentProperties.ChatterIsSilent` | rotencPi/rotencPi.h:98-100 | readings confined to a set of rows that steps never leave without emitting can go on indefinitely without a direction |
| `DetentProperties.RestChatterClosed` | rotencPi/rotencPi.h:110-139 | while one line bounces at rest, FULL stays in rows {0,2} or {0,4} and HALF in {0,2} or {0,1}, without emitting |
| `DetentProperties.HalfwayChatterClosed` | rotencPi/rotencPi.h:110-123 | while one line bounces at 00, HALF stays in rows {3,5} or {3,4} without emitting |
| `DetentProperties.BounceImmunity` | rotencPi/rotencPi.h:98-100 | from Start, any sequence in which only A (11/01) or only B (11/10) moves emits no direction in either machine |
| `DetentProperties.HalfwayBounceImmunity` | rotencPi/rotencPi.h:98-123 | from Halfway, any sequence in which only one line moves around 00 emits no direction in HALF |
| `DetentProperties.BounceBack` | rotencPi/rotencPi.h:98-139 | from Start, 01 then 11, or 10 then 11, returns to Start with nothing emitted, in both machines |
| `DetentProperties.AEdgesOfDetents` | rotencPi/rotencPi.h:47-62 | the readings just after A's edges in a clean +ve detent are 01 and 10; in a -ve detent they are 00 and 11. Counting from 0, A changes at readings 0 and 2 of the +ve detent and at readings 1 and 3 of the -ve detent, and stays steady at the others |
| `DetentProperties.TwoBitJumpsAreBlind` | rotencPi/rotencPi.h:86-94 | SIMPLE_TABLE on samples alternating between readings that differ in both lines writes 0 at every sample |
| `DetentProperties.Simple2TableIsBlind` | rotencPi/rotencPi.h:83-92 | SIMPLE_TABLE on A's edges only writes 0 at every edge of steady rotation, in both directions, for any number of detents |
| `DetentProperties.TwoXOnDetents` | rotencPi/rotencPi.h:83 | the corrected SIMPLE_2 rule reports +1 at both A edges of a +ve detent and -1 at both of a -ve detent |

## Findings

| source | as written | input that shows it | evidently intended | confidence | as-written member | corrected member |
|---|---|---|---|---|---|---|
| rotencPi/rotencPi.h:83-92 | SIMPLE_2 runs on both edges of A only and looks up SIMPLE_TABLE on the nibble abAB | steady +ve rotation: the samples after A's edges are 01,10,01,… so the nibbles are 0x9 and 0x6, both 0; -ve rotation gives 0x3 and 0xc, also 0 | 2x resolution: +1 at each edge of A in +ve rotation, -1 in -ve | medium; not executed; the mode dispatch of the `.c` file is inferred from the header's description | `DetentProperties.Simple2TableIsBlind` | `RotaryEncoder.TwoXDirectionOnAEdges` |

`Encoder.OnEdge` models the code as written: SIMPLE_2 runs `Encoder.SetDirectionTable`, the same
lookup as SIMPLE_4. The corrected rule is the separate entry point `Encoder.SetDirectionTwoX`.

## Left out

- GPIO setup and wiringPi edge-interrupt registration are hardware I/O. So is `encoderInit`'s pin configuration, including the 0xFF "no button" sentinel (rotencPi/rotencPi.h:228-233). Pin readings are method arguments instead.
- The sensitivity delay (rotencPi/rotencPi.h:187) is a blocking wait in interrupt context and has no effect on the decoded value.
- The `volatile` sharing of `encoderDirection` between interrupt and consumer (rotencPi/rotencPi.h:176-178) is concurrency. The direction is a plain single-slot field that each decoder call overwrites.
- The consumer that reads and resets the direction is not declared in the header and is not part of this model.
- `setButtonState` and `buttonState` (rotencPi/rotencPi.h:178, 225) only copy a pin level, so there is no decoding logic to model.
- `RotaryEncoder.Encoder.OnEdge` does not tie the edge to the levels read after it. With contact bounce the level read need not match the edge.
- `int8_t`/`uint8_t` widths are not modelled separately. Every value stored fits them: directions are in {-1,0,+1}, the history is a nibble, rows are below 7.
- The display, LCD, port-expander and potentiometer drivers elsewhere in the repository are not part of this model.

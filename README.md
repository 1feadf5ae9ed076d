# Mars rover, modelled in Dafny

`rover.py` drives a rover over a grid of `width` × `height` blocks. Its
coordinates run from 1 to the extent, and it faces one of the headings
N, E, S, W, numbered 0 to 3 clockwise. The program reads three lines from standard input:

1. the grid size, as two digits 1-9 (`88`);
2. the start position and heading (`12 E`);
3. the instructions, drawn from L (turn left), R (turn right) and M (one block forward).

It then:

- **compiles** the instructions into a summary of runs, each run being a
  (heading, count) pair;
- **integrates** that summary one axis at a time, returning -1 as soon as
  the rover leaves the grid;
- **reports** either `x y H` on standard output or the first error's message
  on standard error.

The model has one module per stage of the program:

| file | module | models |
|---|---|---|
| `types.dfy` | `RoverTypes` | the errors, grid, position and run-length segment; the heading letters `"NESW"` |
| `text.dfy` | `Text` | `readline` on an in-memory stream, the `$` anchor of the patterns, Python 2 `str.strip`, `list.reverse`, `"%s" % n` |
| `parsing.dfy` | `Parsing` | `grid_size`, `initial_pos`, `read_movements`; the instruction list as a stack (`MoveStack`) |
| `compiler.dfy` | `Compiler` | `turn`, `translate_movements` (a method popping the stack, proved against the fold `Scan`/`Compile`) |
| `integrator.dfy` | `Integrator` | `process_summary` (a method, proved against the closed form `AxisResult`) |
| `pipeline.dfy` | `Pipeline` | `Rover.__init__`: the stages, the error order, and what reaches stdout/stderr |
| `scenarios.dfy` | `Scenarios` | the eight scenarios of `tests.py` |

Functions hold the specification. Methods model the code that works step by
step: the stack pops, the `for` loop of `process_summary`, and the
`try` block. Each method's `ensures` ties its result to the specification
functions. Lemmas state what those functions promise.

## Model

| member | source | states |
|---|---|---|
| Parsing.ParseGrid | rover.py:45-53 | accepts exactly a line whose text (before an optional final newline) is two digits 1-9; otherwise the error is InvalidGridSize; an accepted width and height lie in 1..9 |
| Parsing.ParseGridText | rover.py:47-53 | round trip: every grid of extent 1-9 is read back from its two-digit line, with or without the trailing newline |
| Parsing.ParsedGridIsText | rover.py:47-53 | converse round trip: an accepted grid line is exactly the text of the grid it yields |
| Parsing.ParseStart | rover.py:55-68 | InvalidStartPosition exactly when the text is not two digits 1-9, a space and one of N, E, S, W; StartOutOfGrid exactly when it is but x exceeds the width or y the height; otherwise a position inside the grid with a heading 0..3 |
| Parsing.HeadingIndex | rover.py:67 | the index of a heading letter in "NESW": a heading 0..3 whose letter is the one read |
| Parsing.ParseStartText | rover.py:57-68 | round trip: every in-grid position and heading is read back from its "xy D" line, with or without the newline |
| Parsing.ParsedStartIsText | rover.py:57-68 | converse round trip: an accepted start line is exactly the text of the position it yields |
| Parsing.ValidateMovements | rover.py:72-76 | NoInstructions exactly when the line is all whitespace (checked first); InvalidInstruction exactly when the stripped line is non-empty and holds a character outside {L, R, M}; no other error is possible, so a line passing both checks is accepted as its stripped text |
| Parsing.ValidateInstructionLine | rover.py:72-76 | every non-empty L/R/M string is accepted unchanged, with or without the newline `readline` keeps |
| Parsing.MoveStack.constructor | rover.py:78 | the list holds the characters of the string in order |
| Parsing.MoveStack.Reverse | rover.py:79 | the list becomes the reverse of what it was |
| Parsing.MoveStack.Pop | rover.py:114 | removes the last element and returns it; the rest is unchanged |
| Parsing.ReadMovements | rover.py:70-80 | fails with the same error as the validation; otherwise a fresh stack holding the validated instructions reversed, so that pops see them left to right |
| Text.ReadLine | rover.py:47 | `readline`: splits the stream into a first line (ending at its first newline, or the whole rest) and the remainder, losing nothing |
| Text.ReadLineOfLine | rover.py:47 | a stream that begins with a complete line yields that line and leaves the rest |
| Text.Strip | rover.py:72 | the result has no whitespace at either end; it is empty exactly when the line is all whitespace |
| Text.StripCutsWhitespace | rover.py:72 | the result is exactly the slice of the line left once its leading and trailing whitespace are cut away, so inner spaces survive |
| Text.StripLine | rover.py:72 | an unpadded text followed by a newline strips back to itself |
| Text.ReversedTwice | rover.py:79 | reversing twice restores the order, so the stack pops the line's characters first to last |
| Compiler.Turn | rover.py:95-103 | the result is a heading 0..3; R is one step clockwise, L one step anticlockwise, any other character keeps the heading |
| Compiler.TurnsCancel | rover.py:95-103 | L then R, and R then L, return to the original heading |
| Compiler.FourTurns | rover.py:95-103 | four turns the same way return to the original heading |
| Compiler.ScanHeading | rover.py:113-121 | loop invariant: the heading is the start heading plus the R's minus the L's read so far, modulo 4 |
| Compiler.ScanCounts | rover.py:113-121 | loop invariant: every emitted segment has count >= 1, the pending run is >= 0, and the emitted counts plus the pending run equal the M's read so far |
| Compiler.ScanMoves | rover.py:113-121 | loop invariant: the summary plus the pending run stand for exactly the M's read so far, in order, each with the heading it was taken in |
| Compiler.ScanRuns | rover.py:113-121 | loop invariant: the pending run is the length of the block of M's at the end, and the emitted segments, plus one for a non-empty pending run, number the maximal blocks of M's read so far |
| Compiler.CompileSegmentsNonEmpty | rover.py:115-123 | no segment has a count below 1 |
| Compiler.CompileCountsMoves | rover.py:105-124 | the segment counts add up to the number of M's |
| Compiler.CompileMoveHeadings | rover.py:105-124 | expanded, the summary is the heading of each M in order, as the turns before it leave the rover |
| Compiler.CompileFinalHeading | rover.py:105-124 | the final heading is (start + #R − #L) mod 4 |
| Compiler.CompileOneSegmentPerRun | rover.py:113-123 | the number of segments equals the number of maximal blocks of consecutive M's, so turns never add a segment of their own |
| Compiler.CompileRotationsOnly | rover.py:113-123 | instructions without an M compile to the empty summary |
| Compiler.TranslateMovements | rover.py:105-124 | pops the stack empty; returns the summary and final heading of the instructions read left to right |
| Integrator.ProcessSummary | rover.py:82-93 | -1 when some prefix of the summary leaves [1, a_max], otherwise the start plus the net displacement along the axis |
| Integrator.AxisResultInRange | rover.py:82-93 | started in range, the result is -1 or inside [1, a_max] |
| Integrator.EscapeIsFinal | rover.py:91-92 | once a prefix has left the range, no later segment brings the result back from -1 |
| Integrator.ShortCircuitExample | rover.py:91-92 | going 5 west then 5 east from x = 2 on width 8 nets zero, yet the result is -1 |
| Integrator.OffAxisSegmentIgnored | rover.py:86-92 | from an in-range start, removing a segment of the other axis does not change the result |
| Integrator.OffAxisOnly | rover.py:86-93 | a summary with no segment on the axis returns the start unchanged |
| Integrator.AxisResultFirst | rover.py:86-93 | the walk one segment at a time: -1 if the first segment leaves the range, else the result of the rest from the new position |
| Pipeline.Drive | rover.py:33-41 | from an in-grid start, either a final position inside the grid with a heading 0..3, or a HorizontalOutOfRange/VerticalOutOfRange error |
| Pipeline.RunLines | rover.py:29-41 | a successful run needs a valid grid line and ends inside that grid with a heading 0..3 |
| Pipeline.Simulate | rover.py:29-41 | the pipeline fed by three `readline` calls on the input: a successful run needs a valid first line and ends inside the grid it gives, with a heading 0..3 |
| Pipeline.PositionLine | rover.py:41 | the success line ends in a newline just after the heading letter |
| Pipeline.Report | rover.py:36-43 | stdout is non-empty exactly on success and stderr exactly on failure; the stdout line ends in a newline and shows the heading letter; on failure stdout is empty and stderr is the error's own message |
| Pipeline.Message | rover.py:36-76 | the text of each `ValueError` raised at rover.py:37, 39, 49-51, 59-61, 65, 74 and 76; every one is non-empty |
| Pipeline.MessageLength | rover.py:36-76 | the length of each of the seven texts (146, 130, 46, 40, 50, 34, 32 characters) |
| Pipeline.MessagesDistinct | rover.py:37-76 | no two errors share a message, so stderr identifies the error |
| Scenarios.PrintedPosition | rover.py:41 | for every position a 1-9 grid allows, the stdout line is exactly "x y H\n" with single digits and the heading letter, and stderr is empty |
| Pipeline.Execute | rover.py:29-41 | the `try` block reading its three lines from the stream computes the pipeline's result |
| Pipeline.ExecuteLines | rover.py:29-41 | the stages run in order and stop at the first error |
| Pipeline.Navigate | rover.py:32-41 | an instruction error is passed on unchanged; valid instructions give the drive's result |
| Pipeline.Locate | rover.py:34-41 | integrating x over W/E and y over S/N and checking horizontal before vertical gives the drive's result |
| Pipeline.Rover | rover.py:25-43 | what reaches stdout and stderr is the report of the pipeline's result |
| Pipeline.ReadsThreeLines | rover.py:30-32 | with three complete lines on the stream, the pipeline sees those lines whatever follows |
| Pipeline.ErrorPrecedence | rover.py:29-39 | each of the five input errors is reported exactly when every earlier check passed and its own failed |
| Pipeline.DriveOutcome | rover.py:34-41 | HorizontalOutOfRange exactly when the x walk leaves the grid; VerticalOutOfRange exactly when x stays in and the y walk leaves; a final position exactly when neither leaves |
| Pipeline.BoundsErrors | rover.py:29-41 | the same three exact conditions for a run whose three lines are valid |
| Pipeline.HorizontalReportedFirst | rover.py:34-39 | if the x axis escapes, the error is horizontal whatever the y axis does |
| Pipeline.RotationsKeepPosition | rover.py:29-41 | instructions of L/R only leave x and y unchanged and turn the heading by #R − #L |
| Pipeline.CompiledNetCountsMoves | rover.py:86-90 | the net displacement along an axis is the M's taken facing its plus heading minus those facing its minus heading |
| Pipeline.FinalPositionCountsMoves | rover.py:29-41 | on success x = start + #M facing E − #M facing W, y = start + #M facing N − #M facing S, heading = start + #R − #L mod 4 |
| Scenarios.CompileFirstScenario | rover.py:105-124 | "MMLMRMMRRMML" from E compiles to runs E2, N1, E2, W2 and final heading S |
| Scenarios.CompileSecondScenario | rover.py:105-124 | "MLLMMMRMM" from S compiles to runs S1, N3, E2 and final heading E |
| Scenarios.SpecificationScenario | tests.py:20-22 | "88 / 12 E / MMLMRMMRRMML" prints exactly "3 3 S\n" and nothing on stderr |
| Scenarios.AlternateScenario | tests.py:24-26 | "88 / 12 S / MLLMMMRMM" prints exactly "3 4 E\n" and nothing on stderr |
| Scenarios.BoundsScenario | tests.py:28-30 | "88 / 12 S / MM" prints nothing and writes the vertical out-of-range message |
| Scenarios.GridSizeScenario | tests.py:32-34 | "00" as the grid writes the invalid-grid-size message |
| Scenarios.PositionsScenario | tests.py:36-38 | start 64 on a 5×5 grid writes the exceed-grid-size message |
| Scenarios.DirectionsScenario | tests.py:40-42 | heading Q writes the starting-position format message |
| Scenarios.MovementsScenario | tests.py:44-46 | instructions with an F write the only-L-R-M message |
| Scenarios.EmptyMovementsScenario | tests.py:48-50 | an empty instruction line writes the no-instructions message |

## Left out

- Standard input, output and error are strings rather than streams. The source reads each line only when its stage needs it. Reading all three first gives the same outcome because every stage is a pure function of its line, and `Pipeline.ExecuteLines` is the part that matches the source stage by stage.
- The regular expressions are not interpreted. The two fixed patterns are written out as predicates on the text before an optional final newline (`Text.Body`), which is what Python's `$` matches.
- `Text.Strip` strips the six ASCII whitespace characters of Python 2's byte strings; Unicode whitespace is not modelled.
- `len(movements) is 0` relies on CPython sharing the small integer 0; it is modelled as a plain comparison with 0.
- Headings are integers 0..3, as in the source, not an enumeration.
- `curr = None` in `translate_movements` is never read before it is assigned, and is left out.
- `Parsing.MoveStack` holds the list as a sequence field; `Reverse` and `Pop` reassign it rather than mutating a shared buffer. Nothing else holds the list, so aliasing does not arise.
- `Pipeline.Report`: only single-digit coordinates can reach it, so the output line is stated exactly for those (`Scenarios.PrintedPosition`); for other integers only its shape is stated.
- The scenarios are proved for an input given as the literal concatenation of its three lines. The `tests.py` harness that swaps the process streams for `StringIO` objects is not modelled; the proved statement is about what would be written to each stream, and it states the whole message where the test only looks for a substring.
- A `ValueError` raised from anywhere other than the checks in `rover.py` (for example from the stream itself) is not modelled.

/** The eight scenarios of tests.py, stated on the whole pipeline: what
    reaches standard output and standard error for each input. Each is
    proved stage by stage: the lines read, each parser's verdict, the
    compiled summary and the two axis integrations. */
module Scenarios {
  import opened RoverTypes
  import opened Text
  import opened Parsing
  import opened Compiler
  import opened Integrator
  import opened Pipeline

  /** One more character through the compiler loop. */
  lemma ScanPush(d: int, s: string, c: char, t: string)
    requires t == s + [c]
    ensures Scan(d, t) == Feed(Scan(d, s), c)
  {
    assert t[..|s|] == s;
  }

  /** Once the three lines parse, the run is the drive over the parsed values. */
  lemma ParsedRun(gridLine: string, startLine: string, moveLine: string,
                  g: Grid, start: Position, moves: string)
    requires ParseGrid(gridLine) == Ok(g)
    requires ParseStart(startLine, g) == Ok(start)
    requires ValidateMovements(moveLine) == Ok(moves)
    ensures RunLines(gridLine, startLine, moveLine) == Drive(g, start, moves)
  {
  }

  /** When only the instruction line is rejected, its error is the run's. */
  lemma RejectedInstructionsRun(gridLine: string, startLine: string, moveLine: string,
                                g: Grid, e: Error)
    requires ParseGrid(gridLine) == Ok(g)
    requires ParseStart(startLine, g).Ok?
    requires ValidateMovements(moveLine) == Err(e)
    ensures RunLines(gridLine, startLine, moveLine) == Err(e)
  {
  }

  /** A non-empty line of instructions is accepted as typed. */
  lemma AcceptedInstructions(m: string, line: string)
    requires m != [] && AllInstructions(m)
    requires line == m + "\n"
    ensures ValidateMovements(line) == Ok(m)
  {
    ValidateInstructionLine(m, true);
  }

  /** The first half of the first scenario's instructions, from East. */
  lemma ScanFirstHalf()
    ensures Scan(East, "MMLMRM") == ScanState([Segment(East, 2), Segment(North, 1)], 1, East)
  {
    ScanPush(East, "", 'M', "M");
    ScanPush(East, "M", 'M', "MM");
    assert Scan(East, "MM") == ScanState([], 2, East);
    ScanPush(East, "MM", 'L', "MML");
    assert Scan(East, "MML") == ScanState([Segment(East, 2)], 0, North);
    ScanPush(East, "MML", 'M', "MMLM");
    ScanPush(East, "MMLM", 'R', "MMLMR");
    assert Scan(East, "MMLMR") == ScanState([Segment(East, 2), Segment(North, 1)], 0, East);
    ScanPush(East, "MMLMR", 'M', "MMLMRM");
  }

  /** The summary of the first scenario's instructions, from East. */
  lemma CompileFirstScenario()
    ensures Compile(East, "MMLMRMMRRMML") ==
      ([Segment(East, 2), Segment(North, 1), Segment(East, 2), Segment(West, 2)], South)
  {
    ScanFirstHalf();
    ScanPush(East, "MMLMRM", 'M', "MMLMRMM");
    ScanPush(East, "MMLMRMM", 'R', "MMLMRMMR");
    var three := [Segment(East, 2), Segment(North, 1), Segment(East, 2)];
    assert Scan(East, "MMLMRMMR") == ScanState(three, 0, South);
    ScanPush(East, "MMLMRMMR", 'R', "MMLMRMMRR");
    assert Scan(East, "MMLMRMMRR") == ScanState(three, 0, West);
    ScanPush(East, "MMLMRMMRR", 'M', "MMLMRMMRRM");
    ScanPush(East, "MMLMRMMRRM", 'M', "MMLMRMMRRMM");
    ScanPush(East, "MMLMRMMRRMM", 'L', "MMLMRMMRRMML");
    assert Scan(East, "MMLMRMMRRMML") == ScanState(three + [Segment(West, 2)], 0, South);
    assert three + [Segment(West, 2)] ==
      [Segment(East, 2), Segment(North, 1), Segment(East, 2), Segment(West, 2)];
  }

  /** The summary of the second scenario's instructions, from South. */
  lemma CompileSecondScenario()
    ensures Compile(South, "MLLMMMRMM") ==
      ([Segment(South, 1), Segment(North, 3), Segment(East, 2)], East)
  {
    ScanPush(South, "", 'M', "M");
    assert Scan(South, "M") == ScanState([], 1, South);
    ScanPush(South, "M", 'L', "ML");
    assert Scan(South, "ML") == ScanState([Segment(South, 1)], 0, East);
    ScanPush(South, "ML", 'L', "MLL");
    assert Scan(South, "MLL") == ScanState([Segment(South, 1)], 0, North);
    ScanPush(South, "MLL", 'M', "MLLM");
    ScanPush(South, "MLLM", 'M', "MLLMM");
    ScanPush(South, "MLLMM", 'M', "MLLMMM");
    assert Scan(South, "MLLMMM") == ScanState([Segment(South, 1)], 3, North);
    ScanPush(South, "MLLMMM", 'R', "MLLMMMR");
    var two := [Segment(South, 1), Segment(North, 3)];
    assert Scan(South, "MLLMMMR") == ScanState(two, 0, East);
    ScanPush(South, "MLLMMMR", 'M', "MLLMMMRM");
    ScanPush(South, "MLLMMMRM", 'M', "MLLMMMRMM");
    assert Scan(South, "MLLMMMRMM") == ScanState(two, 2, East);
    assert two + [Segment(East, 2)] == [Segment(South, 1), Segment(North, 3), Segment(East, 2)];
  }

  // ---------------------------------------------------------------------
  // tests.py:20-22 and 24-26: two complete journeys on an 8 x 8 grid

  lemma EightByEight()
    ensures ParseGrid("88\n") == Ok(Grid(8, 8))
  {
    ParseGridText(Grid(8, 8), true);
    assert GridText(Grid(8, 8)) + "\n" == "88\n";
  }

  lemma StartOneTwo(d: int, line: string)
    requires 0 <= d < 4
    requires line == [ '1', '2', ' ', Directions[d], '\n' ]
    ensures ParseStart(line, Grid(8, 8)) == Ok(Position(1, 2, d))
  {
    ParseStartText(Position(1, 2, d), Grid(8, 8), true);
    assert StartText(Position(1, 2, d)) + "\n" == line;
  }

  /** The first journey: four segments of two moves east, one north, two east
      and two west. */
  lemma SpecificationDrive()
    ensures Drive(Grid(8, 8), Position(1, 2, East), "MMLMRMMRRMML") == Ok(Position(3, 3, South))
  {
    CompileFirstScenario();
    var summary := [Segment(East, 2), Segment(North, 1), Segment(East, 2), Segment(West, 2)];
    AxisResultFirst(summary, West, East, 1, 8);
    AxisResultFirst(summary[1..], West, East, 3, 8);
    AxisResultFirst(summary[2..], West, East, 3, 8);
    AxisResultFirst(summary[3..], West, East, 5, 8);
    assert summary[3..][1..] == [];
    AxisResultFirst(summary, South, North, 2, 8);
    AxisResultFirst(summary[1..], South, North, 2, 8);
    AxisResultFirst(summary[2..], South, North, 3, 8);
    AxisResultFirst(summary[3..], South, North, 3, 8);
  }

  lemma SpecificationInstructions()
    ensures ValidateMovements("MMLMRMMRRMML\n") == Ok("MMLMRMMRRMML")
  {
    var m := "MMLMRMMRRMML";
    assert AllInstructions(m) by {
      forall i | 0 <= i < |m| ensures IsInstruction(m[i]) {
      }
    }
    AcceptedInstructions(m, "MMLMRMMRRMML\n");
  }

  lemma SpecificationRun()
    ensures RunLines("88\n", "12 E\n", "MMLMRMMRRMML\n") == Ok(Position(3, 3, South))
  {
    EightByEight();
    StartOneTwo(East, "12 E\n");
    SpecificationInstructions();
    ParsedRun("88\n", "12 E\n", "MMLMRMMRRMML\n", Grid(8, 8), Position(1, 2, East), "MMLMRMMRRMML");
    SpecificationDrive();
  }

  lemma SpecificationSimulated(input: string)
    requires input == "88\n" + "12 E\n" + "MMLMRMMRRMML\n"
    ensures Simulate(input) == Ok(Position(3, 3, South))
  {
    ReadsThreeLines("88\n", "12 E\n", "MMLMRMMRRMML\n", "");
    assert "88\n" + "12 E\n" + "MMLMRMMRRMML\n" + "" == input;
    SpecificationRun();
  }

  /** A position inside a 9 x 9 grid is printed as its two digits and its
      heading letter. */
  lemma PrintedPosition(x: int, y: int, d: int, line: string)
    requires 1 <= x <= 9 && 1 <= y <= 9 && 0 <= d < 4
    requires line == [DigitChar(x), ' ', DigitChar(y), ' ', Directions[d], '\n']
    ensures Report(Ok(Position(x, y, d))) == (line, "")
  {
    assert IntToString(x) == [DigitChar(x)] && IntToString(y) == [DigitChar(y)];
    assert [DigitChar(x)] + " " + [DigitChar(y)] + " " + [Directions[d]] + "\n" == line;
  }

  lemma SpecificationPrinted()
    ensures Report(Ok(Position(3, 3, South))) == ("3 3 S\n", "")
  {
    PrintedPosition(3, 3, South, "3 3 S\n");
  }

  /** tests.py:20-22: "88 / 12 E / MMLMRMMRRMML" prints "3 3 S". */
  lemma SpecificationScenario(input: string)
    requires input == "88\n" + "12 E\n" + "MMLMRMMRRMML\n"
    ensures Report(Simulate(input)) == ("3 3 S\n", "")
  {
    SpecificationSimulated(input);
    SpecificationPrinted();
  }

  /** The second journey: one segment south, three north, two east. */
  lemma AlternateDrive()
    ensures Drive(Grid(8, 8), Position(1, 2, South), "MLLMMMRMM") == Ok(Position(3, 4, East))
  {
    CompileSecondScenario();
    var summary := [Segment(South, 1), Segment(North, 3), Segment(East, 2)];
    AxisResultFirst(summary, West, East, 1, 8);
    AxisResultFirst(summary[1..], West, East, 1, 8);
    AxisResultFirst(summary[2..], West, East, 1, 8);
    assert summary[2..][1..] == [];
    AxisResultFirst(summary, South, North, 2, 8);
    AxisResultFirst(summary[1..], South, North, 1, 8);
    AxisResultFirst(summary[2..], South, North, 4, 8);
  }

  lemma AlternateInstructions()
    ensures ValidateMovements("MLLMMMRMM\n") == Ok("MLLMMMRMM")
  {
    var m := "MLLMMMRMM";
    assert AllInstructions(m) by {
      forall i | 0 <= i < |m| ensures IsInstruction(m[i]) {
      }
    }
    AcceptedInstructions(m, "MLLMMMRMM\n");
  }

  lemma AlternateRun()
    ensures RunLines("88\n", "12 S\n", "MLLMMMRMM\n") == Ok(Position(3, 4, East))
  {
    EightByEight();
    StartOneTwo(South, "12 S\n");
    AlternateInstructions();
    ParsedRun("88\n", "12 S\n", "MLLMMMRMM\n", Grid(8, 8), Position(1, 2, South), "MLLMMMRMM");
    AlternateDrive();
  }

  lemma AlternateSimulated(input: string)
    requires input == "88\n" + "12 S\n" + "MLLMMMRMM\n"
    ensures Simulate(input) == Ok(Position(3, 4, East))
  {
    ReadsThreeLines("88\n", "12 S\n", "MLLMMMRMM\n", "");
    assert "88\n" + "12 S\n" + "MLLMMMRMM\n" + "" == input;
    AlternateRun();
  }

  lemma AlternatePrinted()
    ensures Report(Ok(Position(3, 4, East))) == ("3 4 E\n", "")
  {
    PrintedPosition(3, 4, East, "3 4 E\n");
  }

  /** tests.py:24-26: "88 / 12 S / MLLMMMRMM" prints "3 4 E". */
  lemma AlternateScenario(input: string)
    requires input == "88\n" + "12 S\n" + "MLLMMMRMM\n"
    ensures Report(Simulate(input)) == ("3 4 E\n", "")
  {
    AlternateSimulated(input);
    AlternatePrinted();
  }

  // ---------------------------------------------------------------------
  // tests.py:28-50: one scenario per error

  /** Two moves south from y = 2 end below the grid; x stays in range. */
  lemma BoundsDrive()
    ensures Drive(Grid(8, 8), Position(1, 2, South), "MM") == Err(VerticalOutOfRange)
  {
    ScanPush(South, "", 'M', "M");
    ScanPush(South, "M", 'M', "MM");
    assert Scan(South, "MM") == ScanState([], 2, South);
    var summary := [Segment(South, 2)];
    assert [] + summary == summary;
    assert Compile(South, "MM") == (summary, South);
    AxisResultFirst(summary, West, East, 1, 8);
    AxisResultFirst(summary, South, North, 2, 8);
  }

  lemma BoundsRun()
    ensures RunLines("88\n", "12 S\n", "MM\n") == Err(VerticalOutOfRange)
  {
    EightByEight();
    StartOneTwo(South, "12 S\n");
    assert AllInstructions("MM");
    AcceptedInstructions("MM", "MM\n");
    ParsedRun("88\n", "12 S\n", "MM\n", Grid(8, 8), Position(1, 2, South), "MM");
    BoundsDrive();
  }

  lemma BoundsSimulated(input: string)
    requires input == "88\n" + "12 S\n" + "MM\n"
    ensures Simulate(input) == Err(VerticalOutOfRange)
  {
    ReadsThreeLines("88\n", "12 S\n", "MM\n", "");
    assert "88\n" + "12 S\n" + "MM\n" + "" == input;
    BoundsRun();
  }

  /** tests.py:28-30: "88 / 12 S / MM" leaves the grid below y = 1. */
  lemma BoundsScenario(input: string)
    requires input == "88\n" + "12 S\n" + "MM\n"
    ensures Report(Simulate(input)) == ("", Message(VerticalOutOfRange))
  {
    BoundsSimulated(input);
  }

  lemma GridSizeRun()
    ensures RunLines("00\n", "12 S\n", "MM\n") == Err(InvalidGridSize)
  {
    assert Body("00\n") == "00";
  }

  lemma GridSizeSimulated(input: string)
    requires input == "00\n" + "12 S\n" + "MM\n"
    ensures Simulate(input) == Err(InvalidGridSize)
  {
    ReadsThreeLines("00\n", "12 S\n", "MM\n", "");
    assert "00\n" + "12 S\n" + "MM\n" + "" == input;
    GridSizeRun();
  }

  /** tests.py:32-34: a zero in the grid line is rejected. */
  lemma GridSizeScenario(input: string)
    requires input == "00\n" + "12 S\n" + "MM\n"
    ensures Report(Simulate(input)) == ("", Message(InvalidGridSize))
  {
    GridSizeSimulated(input);
  }

  lemma FiveByFive()
    ensures ParseGrid("55\n") == Ok(Grid(5, 5))
  {
    ParseGridText(Grid(5, 5), true);
    assert GridText(Grid(5, 5)) + "\n" == "55\n";
  }

  lemma PositionsRun()
    ensures RunLines("55\n", "64 S\n", "MM\n") == Err(StartOutOfGrid)
  {
    FiveByFive();
    assert Body("64 S\n") == "64 S";
  }

  lemma PositionsSimulated(input: string)
    requires input == "55\n" + "64 S\n" + "MM\n"
    ensures Simulate(input) == Err(StartOutOfGrid)
  {
    ReadsThreeLines("55\n", "64 S\n", "MM\n", "");
    assert "55\n" + "64 S\n" + "MM\n" + "" == input;
    PositionsRun();
  }

  /** tests.py:36-38: a start at x = 6 on a 5 x 5 grid is rejected. */
  lemma PositionsScenario(input: string)
    requires input == "55\n" + "64 S\n" + "MM\n"
    ensures Report(Simulate(input)) == ("", Message(StartOutOfGrid))
  {
    PositionsSimulated(input);
  }

  lemma DirectionsRun()
    ensures RunLines("55\n", "44 Q\n", "MM\n") == Err(InvalidStartPosition)
  {
    FiveByFive();
    assert Body("44 Q\n") == "44 Q";
  }

  lemma DirectionsSimulated(input: string)
    requires input == "55\n" + "44 Q\n" + "MM\n"
    ensures Simulate(input) == Err(InvalidStartPosition)
  {
    ReadsThreeLines("55\n", "44 Q\n", "MM\n", "");
    assert "55\n" + "44 Q\n" + "MM\n" + "" == input;
    DirectionsRun();
  }

  /** tests.py:40-42: the heading letter Q is rejected. */
  lemma DirectionsScenario(input: string)
    requires input == "55\n" + "44 Q\n" + "MM\n"
    ensures Report(Simulate(input)) == ("", Message(InvalidStartPosition))
  {
    DirectionsSimulated(input);
  }

  lemma StartFourFour()
    ensures ParseStart("44 S\n", Grid(5, 5)) == Ok(Position(4, 4, South))
  {
    ParseStartText(Position(4, 4, South), Grid(5, 5), true);
    assert StartText(Position(4, 4, South)) + "\n" == "44 S\n";
  }

  lemma MovementsRejected()
    ensures ValidateMovements("MMFLLLR\n") == Err(InvalidInstruction)
  {
    StripLine("MMFLLLR");
    assert "MMFLLLR" + "\n" == "MMFLLLR\n";
    assert !IsInstruction("MMFLLLR"[2]);
  }

  lemma MovementsRun()
    ensures RunLines("55\n", "44 S\n", "MMFLLLR\n") == Err(InvalidInstruction)
  {
    FiveByFive();
    StartFourFour();
    MovementsRejected();
    RejectedInstructionsRun("55\n", "44 S\n", "MMFLLLR\n", Grid(5, 5), InvalidInstruction);
  }

  lemma MovementsSimulated(input: string)
    requires input == "55\n" + "44 S\n" + "MMFLLLR\n"
    ensures Simulate(input) == Err(InvalidInstruction)
  {
    ReadsThreeLines("55\n", "44 S\n", "MMFLLLR\n", "");
    assert "55\n" + "44 S\n" + "MMFLLLR\n" + "" == input;
    MovementsRun();
  }

  /** tests.py:44-46: the letter F among the instructions is rejected. */
  lemma MovementsScenario(input: string)
    requires input == "55\n" + "44 S\n" + "MMFLLLR\n"
    ensures Report(Simulate(input)) == ("", Message(InvalidInstruction))
  {
    MovementsSimulated(input);
  }

  lemma EmptyMovementsRun()
    ensures RunLines("55\n", "44 S\n", "\n") == Err(NoInstructions)
  {
    FiveByFive();
    StartFourFour();
    assert IsSpace("\n"[0]);
  }

  lemma EmptyMovementsSimulated(input: string)
    requires input == "55\n" + "44 S\n" + "\n"
    ensures Simulate(input) == Err(NoInstructions)
  {
    ReadsThreeLines("55\n", "44 S\n", "\n", "");
    assert "55\n" + "44 S\n" + "\n" + "" == input;
    EmptyMovementsRun();
  }

  /** tests.py:48-50: an empty instruction line is rejected. */
  lemma EmptyMovementsScenario(input: string)
    requires input == "55\n" + "44 S\n" + "\n"
    ensures Report(Simulate(input)) == ("", Message(NoInstructions))
  {
    EmptyMovementsSimulated(input);
  }
}

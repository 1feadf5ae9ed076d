/** `Rover.__init__`: read three lines, parse, compile, integrate each axis,
    and report the final position or the first error. Standard input becomes
    a string argument; standard output and standard error become the two
    strings returned. */
module Pipeline {
  import opened RoverTypes
  import opened Text
  import opened Parsing
  import opened Compiler
  import opened Integrator

  /** What happens once the three lines are parsed (rover.py:33-41): compile
      the instructions, integrate x against W/E and y against S/N over the
      same summary, and report the horizontal failure before the vertical. */
  function Drive(g: Grid, start: Position, moves: string): (r: Result<Position>)
    requires 0 <= start.direction < 4
    requires InRange(start.x, g.width) && InRange(start.y, g.height)
    ensures r.Ok? ==> InRange(r.value.x, g.width) && InRange(r.value.y, g.height)
    ensures r.Ok? ==> 0 <= r.value.direction < 4
    ensures r.Err? ==> r.error == HorizontalOutOfRange || r.error == VerticalOutOfRange
  {
    var (summary, direction) := Compile(start.direction, moves);
    var finalX := AxisResult(summary, West, East, start.x, g.width);
    var finalY := AxisResult(summary, South, North, start.y, g.height);
    AxisResultInRange(summary, West, East, start.x, g.width);
    AxisResultInRange(summary, South, North, start.y, g.height);
    CompileFinalHeading(start.direction, moves);
    if finalX < 0 then Err(HorizontalOutOfRange)
    else if finalY < 0 then Err(VerticalOutOfRange)
    else Ok(Position(finalX, finalY, direction))
  }

  /** `Drive` in terms of its parts: the compiled summary and the two axis
      results. */
  lemma DriveOfParts(g: Grid, start: Position, moves: string,
                     summary: seq<Segment>, direction: int, finalX: int, finalY: int)
    requires 0 <= start.direction < 4
    requires InRange(start.x, g.width) && InRange(start.y, g.height)
    requires (summary, direction) == Compile(start.direction, moves)
    requires finalX == AxisResult(summary, West, East, start.x, g.width)
    requires finalY == AxisResult(summary, South, North, start.y, g.height)
    ensures Drive(g, start, moves) ==
      if finalX < 0 then Err(HorizontalOutOfRange)
      else if finalY < 0 then Err(VerticalOutOfRange)
      else Ok(Position(finalX, finalY, direction))
  {
  }

  /** The pipeline on its three input lines; each stage's error ends it. */
  function RunLines(gridLine: string, startLine: string, moveLine: string): (r: Result<Position>)
    ensures r.Ok? ==>
      && ParseGrid(gridLine).Ok?
      && InRange(r.value.x, ParseGrid(gridLine).value.width)
      && InRange(r.value.y, ParseGrid(gridLine).value.height)
      && 0 <= r.value.direction < 4
  {
    match ParseGrid(gridLine)
    case Err(e) => Err(e)
    case Ok(g) =>
      match ParseStart(startLine, g)
      case Err(e) => Err(e)
      case Ok(start) =>
        match ValidateMovements(moveLine)
        case Err(e) => Err(e)
        case Ok(moves) => Drive(g, start, moves)
  }

  /** The pipeline on the whole of standard input: three `readline` calls,
      then `RunLines`. */
  function Simulate(input: string): (r: Result<Position>)
    ensures r.Ok? ==>
      var g := ParseGrid(ReadLine(input).0);
      && g.Ok?
      && InRange(r.value.x, g.value.width) && InRange(r.value.y, g.value.height)
      && 0 <= r.value.direction < 4
  {
    var (gridLine, rest) := ReadLine(input);
    var (startLine, rest') := ReadLine(rest);
    var (moveLine, _) := ReadLine(rest');
    RunLines(gridLine, startLine, moveLine)
  }

  /** The text of each error, as `str(e)` writes it to standard error. */
  function Message(e: Error): (m: string)
    ensures m != []
  {
    match e
    case InvalidGridSize =>
      "Invalid grid size provided. \n" +
      "Expected format is a two digit number with the first numeral\n" +
      " as width, and the second numeral being height. eg. 88.\n"
    case InvalidStartPosition =>
      "Unexpected format for starting position and direction.\n" +
      "Expect: xy D\n" +
      " where x and y are single digit numbers, and D is one of NESW."
    case StartOutOfGrid => "Initial coordinate positions exceed grid size."
    case NoInstructions => "No movement instructions were supplied.\n"
    case InvalidInstruction => "Movement instructions may contain only L, R or M.\n"
    case HorizontalOutOfRange => "Horizontal movement out of range.\n"
    case VerticalOutOfRange => "Vertical movement out of range.\n"
  }

  /** Each error has its own message, so standard error tells them apart. */
  lemma MessagesDistinct(e1: Error, e2: Error)
    ensures Message(e1) == Message(e2) ==> e1 == e2
  {
    MessageLength(e1);
    MessageLength(e2);
  }

  /** The length of each message. */
  lemma MessageLength(e: Error)
    ensures |Message(e)| ==
      match e
      case InvalidGridSize => 146
      case InvalidStartPosition => 130
      case StartOutOfGrid => 46
      case NoInstructions => 40
      case InvalidInstruction => 50
      case HorizontalOutOfRange => 34
      case VerticalOutOfRange => 32
  {
    match e
    case InvalidGridSize =>
    case InvalidStartPosition =>
    case StartOutOfGrid =>
    case NoInstructions =>
    case InvalidInstruction =>
    case HorizontalOutOfRange =>
    case VerticalOutOfRange =>
  }

  /** The line written on success, "x y H\n": it ends in a newline just after
      the heading letter. */
  function PositionLine(p: Position): (line: string)
    requires 0 <= p.direction < 4
    ensures |line| >= 2 && line[|line| - 1] == '\n' && line[|line| - 2] == Directions[p.direction]
  {
    IntToString(p.x) + " " + IntToString(p.y) + " " + [Directions[p.direction]] + "\n"
  }

  /** What reaches (standard output, standard error): the position line on
      success, the error's own message otherwise, never both. */
  function Report(r: Result<Position>): (out: (string, string))
    requires r.Ok? ==> 0 <= r.value.direction < 4
    ensures r.Ok? <==> out.0 != []
    ensures r.Err? <==> out.1 != []
    ensures r.Ok? ==> out.0[|out.0| - 1] == '\n' && Directions[r.value.direction] in out.0
    ensures r.Err? ==> out == ("", Message(r.error))
  {
    match r
    case Ok(p) => (PositionLine(p), "")
    case Err(e) => ("", Message(e))
  }

  /** The `try` block of `Rover.__init__`, run on standard input `input`. */
  method Execute(input: string) returns (r: Result<Position>)
    ensures r == Simulate(input)
  {
    var (gridLine, rest) := ReadLine(input);
    var (startLine, rest') := ReadLine(rest);
    var (moveLine, _) := ReadLine(rest');
    assert Simulate(input) == RunLines(gridLine, startLine, moveLine);
    r := ExecuteLines(gridLine, startLine, moveLine);
  }

  /** The stages of the `try` block once the lines are known; the lines are
      read lazily in the source, which makes no difference to the outcome. */
  method ExecuteLines(gridLine: string, startLine: string, moveLine: string) returns (r: Result<Position>)
    ensures r == RunLines(gridLine, startLine, moveLine)
  {
    var grid := ParseGrid(gridLine);
    if grid.Err? {
      return Err(grid.error);
    }
    var start := ParseStart(startLine, grid.value);
    if start.Err? {
      return Err(start.error);
    }
    r := Navigate(grid.value, start.value, moveLine);
  }

  /** The stages after the start position: read the instructions, compile
      them, integrate both axes. */
  method Navigate(g: Grid, start: Position, moveLine: string) returns (r: Result<Position>)
    requires 0 <= start.direction < 4
    requires InRange(start.x, g.width) && InRange(start.y, g.height)
    ensures ValidateMovements(moveLine).Err? ==> r == Err(ValidateMovements(moveLine).error)
    ensures ValidateMovements(moveLine).Ok? ==> r == Drive(g, start, ValidateMovements(moveLine).value)
  {
    var movements := ReadMovements(moveLine);
    if movements.Err? {
      return Err(movements.error);
    }
    ghost var moves := ValidateMovements(moveLine).value;
    ReversedTwice(moves);
    var summary, direction := TranslateMovements(movements.value, start.direction);
    r := Locate(g, start, moves, summary, direction);
  }

  /** The last stage: integrate both axes over the summary, then report the
      horizontal failure before the vertical one. */
  method Locate(g: Grid, start: Position, ghost moves: string, summary: seq<Segment>, direction: int)
    returns (r: Result<Position>)
    requires 0 <= start.direction < 4
    requires InRange(start.x, g.width) && InRange(start.y, g.height)
    requires (summary, direction) == Compile(start.direction, moves)
    ensures r == Drive(g, start, moves)
  {
    var finalX := ProcessSummary(summary, West, East, start.x, g.width);
    assert finalX == AxisResult(summary, West, East, start.x, g.width);
    var finalY := ProcessSummary(summary, South, North, start.y, g.height);
    assert finalY == AxisResult(summary, South, North, start.y, g.height);
    DriveOfParts(g, start, moves, summary, direction, finalX, finalY);
    if finalX < 0 {
      r := Err(HorizontalOutOfRange);
    } else if finalY < 0 {
      r := Err(VerticalOutOfRange);
    } else {
      r := Ok(Position(finalX, finalY, direction));
    }
  }

  /** `Rover()`: runs the pipeline and writes the outcome to one of the two
      output streams. */
  method Rover(input: string) returns (stdout: string, stderr: string)
    ensures (stdout, stderr) == Report(Simulate(input))
  {
    var r := Execute(input);
    var out := Report(r);
    stdout, stderr := out.0, out.1;
  }

  // ---------------------------------------------------------------------
  // Properties of the whole pipeline

  /** Three complete lines on standard input are the three lines the pipeline
      reads, whatever follows them. */
  lemma ReadsThreeLines(gridLine: string, startLine: string, moveLine: string, tail: string)
    requires IsLine(gridLine) && gridLine != [] && gridLine[|gridLine| - 1] == '\n'
    requires IsLine(startLine) && startLine != [] && startLine[|startLine| - 1] == '\n'
    requires IsLine(moveLine) && (tail == [] || (moveLine != [] && moveLine[|moveLine| - 1] == '\n'))
    ensures Simulate(gridLine + startLine + moveLine + tail) == RunLines(gridLine, startLine, moveLine)
  {
    var input := gridLine + startLine + moveLine + tail;
    assert input == gridLine + (startLine + moveLine + tail);
    ReadLineOfLine(gridLine, startLine + moveLine + tail);
    assert startLine + moveLine + tail == startLine + (moveLine + tail);
    ReadLineOfLine(startLine, moveLine + tail);
    ReadLineOfLine(moveLine, tail);
  }

  /** The errors are checked in a fixed order, and each is reported exactly
      when every earlier check passed and its own check failed. */
  lemma ErrorPrecedence(gridLine: string, startLine: string, moveLine: string)
    ensures var r := RunLines(gridLine, startLine, moveLine);
      && (r == Err(InvalidGridSize) <==> !IsGridText(Body(gridLine)))
      && (r == Err(InvalidStartPosition) <==>
            IsGridText(Body(gridLine)) && !IsStartText(Body(startLine)))
      && (r == Err(StartOutOfGrid) <==>
            IsGridText(Body(gridLine)) &&
            ParseStart(startLine, ParseGrid(gridLine).value) == Err(StartOutOfGrid))
      && (r == Err(NoInstructions) <==>
            IsGridText(Body(gridLine)) && ParseStart(startLine, ParseGrid(gridLine).value).Ok? &&
            forall i :: 0 <= i < |moveLine| ==> IsSpace(moveLine[i]))
      && (r == Err(InvalidInstruction) <==>
            IsGridText(Body(gridLine)) && ParseStart(startLine, ParseGrid(gridLine).value).Ok? &&
            Strip(moveLine) != [] && !AllInstructions(Strip(moveLine)))
  {
    var r := RunLines(gridLine, startLine, moveLine);
    if ParseGrid(gridLine).Ok? {
      var g := ParseGrid(gridLine).value;
      if ParseStart(startLine, g).Ok? {
        var start := ParseStart(startLine, g).value;
        if ValidateMovements(moveLine).Ok? {
          assert r == Drive(g, start, ValidateMovements(moveLine).value);
        }
      }
    }
  }

  /** When both axes leave the grid, the horizontal error is the one reported. */
  lemma HorizontalReportedFirst(gridLine: string, startLine: string, moveLine: string)
    requires ParseGrid(gridLine).Ok?
    requires ParseStart(startLine, ParseGrid(gridLine).value).Ok?
    requires ValidateMovements(moveLine).Ok?
    requires var g := ParseGrid(gridLine).value;
      var start := ParseStart(startLine, g).value;
      var summary := Compile(start.direction, ValidateMovements(moveLine).value).0;
      Escapes(summary, West, East, start.x, g.width)
    ensures RunLines(gridLine, startLine, moveLine) == Err(HorizontalOutOfRange)
  {
  }

  /** The drive fails horizontally exactly when x leaves the grid, vertically
      exactly when x stays in and y leaves it, and succeeds exactly when
      neither does. */
  lemma DriveOutcome(g: Grid, start: Position, moves: string)
    requires 0 <= start.direction < 4
    requires InRange(start.x, g.width) && InRange(start.y, g.height)
    ensures var s := Compile(start.direction, moves).0;
      && (Drive(g, start, moves) == Err(HorizontalOutOfRange) <==>
            Escapes(s, West, East, start.x, g.width))
      && (Drive(g, start, moves) == Err(VerticalOutOfRange) <==>
            !Escapes(s, West, East, start.x, g.width) && Escapes(s, South, North, start.y, g.height))
      && (Drive(g, start, moves).Ok? <==>
            !Escapes(s, West, East, start.x, g.width) && !Escapes(s, South, North, start.y, g.height))
  {
    var (s, direction) := Compile(start.direction, moves);
    var finalX := AxisResult(s, West, East, start.x, g.width);
    var finalY := AxisResult(s, South, North, start.y, g.height);
    AxisResultInRange(s, West, East, start.x, g.width);
    AxisResultInRange(s, South, North, start.y, g.height);
    assert s[..|s|] == s;
    DriveOfParts(g, start, moves, s, direction, finalX, finalY);
  }

  /** The bounds errors of a run whose three lines are valid: horizontal
      exactly when x leaves the grid, vertical exactly when only y does, and
      a final position exactly when neither does. */
  lemma BoundsErrors(gridLine: string, startLine: string, moveLine: string)
    requires ParseGrid(gridLine).Ok?
    requires ParseStart(startLine, ParseGrid(gridLine).value).Ok?
    requires ValidateMovements(moveLine).Ok?
    ensures var g := ParseGrid(gridLine).value;
      var start := ParseStart(startLine, g).value;
      var s := Compile(start.direction, ValidateMovements(moveLine).value).0;
      var r := RunLines(gridLine, startLine, moveLine);
      && (r == Err(HorizontalOutOfRange) <==> Escapes(s, West, East, start.x, g.width))
      && (r == Err(VerticalOutOfRange) <==>
            !Escapes(s, West, East, start.x, g.width) && Escapes(s, South, North, start.y, g.height))
      && (r.Ok? <==>
            !Escapes(s, West, East, start.x, g.width) && !Escapes(s, South, North, start.y, g.height))
  {
    var g := ParseGrid(gridLine).value;
    var start := ParseStart(startLine, g).value;
    var moves := ValidateMovements(moveLine).value;
    assert RunLines(gridLine, startLine, moveLine) == Drive(g, start, moves);
    DriveOutcome(g, start, moves);
  }

  /** Turns alone do not move the rover: the drive ends where it started,
      facing the start heading turned by each L and R. */
  lemma DriveRotationsOnly(g: Grid, start: Position, moves: string)
    requires 0 <= start.direction < 4
    requires InRange(start.x, g.width) && InRange(start.y, g.height)
    requires 'M' !in moves
    ensures Drive(g, start, moves) == Ok(Position(start.x, start.y, HeadingAfter(start.direction, moves)))
  {
    CompileRotationsOnly(start.direction, moves);
    CompileFinalHeading(start.direction, moves);
    assert !Escapes([], West, East, start.x, g.width);
    assert !Escapes([], South, North, start.y, g.height);
  }

  /** Instructions made only of turns leave the rover where it started, facing
      the start heading turned by each L and R. */
  lemma RotationsKeepPosition(gridLine: string, startLine: string, moveLine: string)
    requires ParseGrid(gridLine).Ok?
    requires ParseStart(startLine, ParseGrid(gridLine).value).Ok?
    requires ValidateMovements(moveLine).Ok?
    requires 'M' !in ValidateMovements(moveLine).value
    ensures var start := ParseStart(startLine, ParseGrid(gridLine).value).value;
      RunLines(gridLine, startLine, moveLine) ==
        Ok(Position(start.x, start.y, HeadingAfter(start.direction, ValidateMovements(moveLine).value)))
  {
    var g := ParseGrid(gridLine).value;
    var start := ParseStart(startLine, g).value;
    var moves := ValidateMovements(moveLine).value;
    assert RunLines(gridLine, startLine, moveLine) == Drive(g, start, moves);
    DriveRotationsOnly(g, start, moves);
  }

  /** `count` copies of `d` hold `d` that many times and nothing else. */
  lemma {:induction false} RepeatOccurrences(d: int, count: int, h: int)
    ensures multiset(Repeat(d, count))[h] == if h == d && count > 0 then count else 0
  {
    if count > 0 {
      RepeatOccurrences(d, count - 1, h);
      assert multiset(Repeat(d, count)) == multiset(Repeat(d, count - 1)) + multiset{d};
    }
  }

  /** The net displacement of a summary of runs is the number of single moves
      it stands for in the increasing heading minus those in the decreasing one. */
  lemma {:induction false} NetIsMoveBalance(summary: seq<Segment>, minus: int, plus: int)
    requires minus != plus
    requires forall i :: 0 <= i < |summary| ==> summary[i].count >= 1
    ensures Net(summary, minus, plus) ==
            multiset(Expand(summary))[plus] as int - multiset(Expand(summary))[minus] as int
  {
    if summary != [] {
      var init, last := summary[..|summary| - 1], summary[|summary| - 1];
      NetIsMoveBalance(init, minus, plus);
      RepeatOccurrences(last.direction, last.count, plus);
      RepeatOccurrences(last.direction, last.count, minus);
      assert multiset(Expand(summary)) ==
             multiset(Expand(init)) + multiset(Repeat(last.direction, last.count));
    }
  }

  /** The net displacement of compiled instructions along an axis is the
      number of `M`s taken facing its increasing heading minus those taken
      facing its decreasing heading. */
  lemma CompiledNetCountsMoves(d: int, moves: string, minus: int, plus: int)
    requires 0 <= d < 4
    requires minus != plus
    ensures Net(Compile(d, moves).0, minus, plus) ==
            MovesFacing(d, moves, plus) - MovesFacing(d, moves, minus)
  {
    CompileSegmentsNonEmpty(d, moves);
    CompileMoveHeadings(d, moves);
    NetIsMoveBalance(Compile(d, moves).0, minus, plus);
  }

  /** A successful run moves each coordinate by the net displacement of the
      compiled summary along its axis. */
  lemma DriveMovesByNet(g: Grid, start: Position, moves: string)
    requires 0 <= start.direction < 4
    requires InRange(start.x, g.width) && InRange(start.y, g.height)
    requires Drive(g, start, moves).Ok?
    ensures var p := Drive(g, start, moves).value;
      && p.x == start.x + Net(Compile(start.direction, moves).0, West, East)
      && p.y == start.y + Net(Compile(start.direction, moves).0, South, North)
      && p.direction == Compile(start.direction, moves).1
  {
    var (summary, direction) := Compile(start.direction, moves);
    var finalX := AxisResult(summary, West, East, start.x, g.width);
    var finalY := AxisResult(summary, South, North, start.y, g.height);
    assert Drive(g, start, moves) == Ok(Position(finalX, finalY, direction));
  }

  /** A position reached by the net displacements of the compiled summary is
      the start plus the moves counted by heading. */
  lemma MovedByNetCountsMoves(start: Position, moves: string, p: Position)
    requires 0 <= start.direction < 4
    requires p.x == start.x + Net(Compile(start.direction, moves).0, West, East)
    requires p.y == start.y + Net(Compile(start.direction, moves).0, South, North)
    requires p.direction == Compile(start.direction, moves).1
    ensures
      && p.x == start.x + MovesFacing(start.direction, moves, East) - MovesFacing(start.direction, moves, West)
      && p.y == start.y + MovesFacing(start.direction, moves, North) - MovesFacing(start.direction, moves, South)
      && p.direction == HeadingAfter(start.direction, moves)
  {
    CompiledNetCountsMoves(start.direction, moves, West, East);
    CompiledNetCountsMoves(start.direction, moves, South, North);
    CompileFinalHeading(start.direction, moves);
  }

  /** Once parsed, a successful run ends at the start plus one step for each
      `M` facing East (North) minus one for each `M` facing West (South),
      facing the start heading turned by every L and R. */
  lemma DriveCountsMoves(g: Grid, start: Position, moves: string)
    requires 0 <= start.direction < 4
    requires InRange(start.x, g.width) && InRange(start.y, g.height)
    requires Drive(g, start, moves).Ok?
    ensures var p := Drive(g, start, moves).value;
      && p.x == start.x + MovesFacing(start.direction, moves, East) - MovesFacing(start.direction, moves, West)
      && p.y == start.y + MovesFacing(start.direction, moves, North) - MovesFacing(start.direction, moves, South)
      && p.direction == HeadingAfter(start.direction, moves)
  {
    DriveMovesByNet(g, start, moves);
    MovedByNetCountsMoves(start, moves, Drive(g, start, moves).value);
  }

  /** On success the rover ends at the start plus one step for each `M` facing
      East (North) minus one for each `M` facing West (South), facing the start
      heading turned by every L and R. */
  lemma FinalPositionCountsMoves(gridLine: string, startLine: string, moveLine: string)
    requires RunLines(gridLine, startLine, moveLine).Ok?
    ensures var start := ParseStart(startLine, ParseGrid(gridLine).value).value;
      var moves := ValidateMovements(moveLine).value;
      var p := RunLines(gridLine, startLine, moveLine).value;
      && p.x == start.x + MovesFacing(start.direction, moves, East) - MovesFacing(start.direction, moves, West)
      && p.y == start.y + MovesFacing(start.direction, moves, North) - MovesFacing(start.direction, moves, South)
      && p.direction == HeadingAfter(start.direction, moves)
  {
    var g := ParseGrid(gridLine).value;
    var start := ParseStart(startLine, g).value;
    var moves := ValidateMovements(moveLine).value;
    assert RunLines(gridLine, startLine, moveLine) == Drive(g, start, moves);
    DriveCountsMoves(g, start, moves);
  }
}

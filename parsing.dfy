/** The three input-line readers of rover.py: the grid size, the start
    position and the movement instructions. */
module Parsing {
  import opened RoverTypes
  import opened Text

  /** The character class `[1-9]`. */
  predicate IsCoordDigit(c: char)
  {
    '1' <= c <= '9'
  }

  function DigitValue(c: char): (v: int)
    requires IsCoordDigit(c)
    ensures 1 <= v <= 9 && DigitChar(v) == c
  {
    c as int - '0' as int
  }

  /** The character class `[NSEW]`. */
  predicate IsHeadingLetter(c: char)
  {
    c == 'N' || c == 'E' || c == 'S' || c == 'W'
  }

  /** `"NESW".index(c)`: the heading whose letter is `c`. */
  function HeadingIndex(c: char): (d: int)
    requires IsHeadingLetter(c)
    ensures 0 <= d < 4 && Directions[d] == c
  {
    if c == 'N' then North else if c == 'E' then East else if c == 'S' then South else West
  }

  /** Text matching `^([1-9])([1-9])$` once the optional final newline is gone. */
  predicate IsGridText(b: string)
  {
    |b| == 2 && IsCoordDigit(b[0]) && IsCoordDigit(b[1])
  }

  /** Text matching `^([1-9])([1-9]) ([NSEW])$` once the optional final newline is gone. */
  predicate IsStartText(b: string)
  {
    |b| == 4 && IsCoordDigit(b[0]) && IsCoordDigit(b[1]) && b[2] == ' ' && IsHeadingLetter(b[3])
  }

  /** `grid_size`: the first line is two digits 1-9, width then height. */
  function ParseGrid(line: string): (r: Result<Grid>)
    ensures r.Ok? <==> IsGridText(Body(line))
    ensures r.Err? ==> r.error == InvalidGridSize
    ensures r.Ok? ==> 1 <= r.value.width <= 9 && 1 <= r.value.height <= 9
  {
    var b := Body(line);
    if IsGridText(b) then Ok(Grid(DigitValue(b[0]), DigitValue(b[1])))
    else Err(InvalidGridSize)
  }

  /** The grid line a user types for `g`, e.g. "88". */
  function GridText(g: Grid): (s: string)
    requires 1 <= g.width <= 9 && 1 <= g.height <= 9
    ensures IsGridText(s)
  {
    [DigitChar(g.width), DigitChar(g.height)]
  }

  /** Every grid of extent 1-9 is read back from its line, with or without the
      newline `readline` keeps. */
  lemma ParseGridText(g: Grid, newline: bool)
    requires 1 <= g.width <= 9 && 1 <= g.height <= 9
    ensures ParseGrid(GridText(g) + (if newline then "\n" else "")) == Ok(g)
  {
    var line := GridText(g) + (if newline then "\n" else "");
    assert Body(line) == GridText(g);
  }

  /** Conversely, an accepted grid line is exactly the text of the grid it gives. */
  lemma ParsedGridIsText(line: string)
    requires ParseGrid(line).Ok?
    ensures Body(line) == GridText(ParseGrid(line).value)
  {
  }

  /** `initial_pos`: the second line is "<x><y> <heading>"; the format is
      checked first, then the upper bounds against the grid (the format already
      makes both coordinates at least 1). */
  function ParseStart(line: string, g: Grid): (r: Result<Position>)
    ensures r == Err(InvalidStartPosition) <==> !IsStartText(Body(line))
    ensures r == Err(StartOutOfGrid) <==>
      IsStartText(Body(line)) &&
      (DigitValue(Body(line)[0]) > g.width || DigitValue(Body(line)[1]) > g.height)
    ensures r.Err? ==> r.error == InvalidStartPosition || r.error == StartOutOfGrid
    ensures r.Ok? ==>
      1 <= r.value.x <= g.width && 1 <= r.value.y <= g.height &&
      0 <= r.value.direction < 4
  {
    var b := Body(line);
    if !IsStartText(b) then Err(InvalidStartPosition)
    else
      var x, y := DigitValue(b[0]), DigitValue(b[1]);
      if x > g.width || y > g.height then Err(StartOutOfGrid)
      else Ok(Position(x, y, HeadingIndex(b[3])))
  }

  /** The start line a user types for `p`, e.g. "12 E". */
  function StartText(p: Position): (s: string)
    requires 1 <= p.x <= 9 && 1 <= p.y <= 9 && 0 <= p.direction < 4
    ensures IsStartText(s)
  {
    [DigitChar(p.x), DigitChar(p.y), ' ', Directions[p.direction]]
  }

  /** Every start position inside the grid is read back from its line,
      coordinates and heading alike. */
  lemma ParseStartText(p: Position, g: Grid, newline: bool)
    requires 1 <= p.x <= g.width <= 9 && 1 <= p.y <= g.height <= 9 && 0 <= p.direction < 4
    ensures ParseStart(StartText(p) + (if newline then "\n" else ""), g) == Ok(p)
  {
    var line := StartText(p) + (if newline then "\n" else "");
    assert Body(line) == StartText(p);
  }

  /** Conversely, an accepted start line is exactly the text of the position it gives. */
  lemma ParsedStartIsText(line: string, g: Grid)
    requires ParseStart(line, g).Ok?
    ensures Body(line) == StartText(ParseStart(line, g).value)
  {
    var b := Body(line);
    assert b == [b[0], b[1], b[2], b[3]];
  }

  /** The alphabet of the third line. */
  predicate IsInstruction(c: char)
  {
    c == 'L' || c == 'R' || c == 'M'
  }

  predicate AllInstructions(s: string)
  {
    forall i :: 0 <= i < |s| ==> IsInstruction(s[i])
  }

  /** The checks of `read_movements`: the stripped third line must be
      non-empty (checked first) and drawn from {L, R, M}. */
  function ValidateMovements(line: string): (r: Result<string>)
    ensures r == Err(NoInstructions) <==> forall i :: 0 <= i < |line| ==> IsSpace(line[i])
    ensures r == Err(InvalidInstruction) <==> Strip(line) != [] && !AllInstructions(Strip(line))
    ensures r.Err? ==> r.error == NoInstructions || r.error == InvalidInstruction
    ensures r.Ok? ==> r.value == Strip(line) && r.value != [] && AllInstructions(r.value)
  {
    var m := Strip(line);
    if |m| == 0 then Err(NoInstructions)
    else if !AllInstructions(m) then Err(InvalidInstruction)
    else Ok(m)
  }

  /** Any non-empty instruction string is accepted as typed, with or without
      the newline `readline` keeps. */
  lemma ValidateInstructionLine(s: string, newline: bool)
    requires s != [] && AllInstructions(s)
    ensures ValidateMovements(s + (if newline then "\n" else "")) == Ok(s)
  {
    assert IsInstruction(s[0]) && IsInstruction(s[|s| - 1]);
    if newline {
      StripLine(s);
    } else {
      assert s + "" == s;
      StripUnpadded(s);
    }
  }

  /** The Python list of instruction characters, used as a stack whose top is
      its last element. */
  class MoveStack {
    var items: seq<char>

    /** `list(movements)` */
    constructor (s: string)
      ensures items == s
    {
      items := s;
    }

    /** `movements.reverse()` */
    method Reverse()
      modifies this
      ensures items == Reversed(old(items))
    {
      items := Reversed(items);
    }

    /** `movements.pop()`: removes and returns the last element. */
    method Pop() returns (c: char)
      requires items != []
      modifies this
      ensures old(items) == items + [c]
    {
      c := items[|items| - 1];
      items := items[..|items| - 1];
    }
  }

  /** `read_movements`: validates the third line and turns it into a stack
      that pops its characters from left to right. */
  method ReadMovements(line: string) returns (r: Result<MoveStack>)
    ensures r.Err? <==> ValidateMovements(line).Err?
    ensures r.Err? ==> r.error == ValidateMovements(line).error
    ensures r.Ok? ==>
      fresh(r.value) && r.value.items == Reversed(ValidateMovements(line).value)
  {
    var checked := ValidateMovements(line);
    if checked.Err? {
      return Err(checked.error);
    }
    var movements := new MoveStack(checked.value);
    movements.Reverse();
    r := Ok(movements);
  }
}

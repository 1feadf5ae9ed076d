/** The instruction compiler of rover.py: rotation and the run-length
    summary of forward moves (`turn`, `translate_movements`). */
module Compiler {
  import opened RoverTypes
  import opened Text
  import opened Parsing

  /** `turn`: L steps the heading one place anticlockwise, R one place
      clockwise, anything else leaves it; the result is reduced modulo 4
      (Python's `%` and Dafny's agree for the positive divisor 4). */
  function Turn(direction: int, lr: char): (r: int)
    ensures 0 <= r < 4
    ensures lr == 'L' ==> r == (direction + 3) % 4
    ensures lr == 'R' ==> r == (direction + 1) % 4
    ensures lr != 'L' && lr != 'R' ==> r == direction % 4
  {
    var d := if lr == 'L' then direction - 1 else if lr == 'R' then direction + 1 else direction;
    (d + 4) % 4
  }

  /** A right turn undoes a left turn and vice versa. */
  lemma TurnsCancel(d: int)
    requires 0 <= d < 4
    ensures Turn(Turn(d, 'L'), 'R') == d
    ensures Turn(Turn(d, 'R'), 'L') == d
  {
  }

  /** Four turns the same way face the rover where it started. */
  lemma FourTurns(d: int)
    requires 0 <= d < 4
    ensures Turn(Turn(Turn(Turn(d, 'R'), 'R'), 'R'), 'R') == d
    ensures Turn(Turn(Turn(Turn(d, 'L'), 'L'), 'L'), 'L') == d
  {
    if d == 0 {
      assert Turn(0, 'R') == 1 && Turn(1, 'R') == 2 && Turn(2, 'R') == 3 && Turn(3, 'R') == 0;
      assert Turn(0, 'L') == 3 && Turn(3, 'L') == 2 && Turn(2, 'L') == 1 && Turn(1, 'L') == 0;
    } else if d == 1 {
      assert Turn(1, 'R') == 2 && Turn(2, 'R') == 3 && Turn(3, 'R') == 0 && Turn(0, 'R') == 1;
      assert Turn(1, 'L') == 0 && Turn(0, 'L') == 3 && Turn(3, 'L') == 2 && Turn(2, 'L') == 1;
    } else if d == 2 {
      assert Turn(2, 'R') == 3 && Turn(3, 'R') == 0 && Turn(0, 'R') == 1 && Turn(1, 'R') == 2;
      assert Turn(2, 'L') == 1 && Turn(1, 'L') == 0 && Turn(0, 'L') == 3 && Turn(3, 'L') == 2;
    } else {
      assert Turn(3, 'R') == 0 && Turn(0, 'R') == 1 && Turn(1, 'R') == 2 && Turn(2, 'R') == 3;
      assert Turn(3, 'L') == 2 && Turn(2, 'L') == 1 && Turn(1, 'L') == 0 && Turn(0, 'L') == 3;
    }
  }

  /** Turning from a heading reduced modulo 4 is turning from the unreduced sum. */
  lemma TurnOfSum(a: int, lr: char)
    requires lr == 'L' || lr == 'R'
    ensures Turn(a % 4, lr) == (a + (if lr == 'R' then 1 else -1)) % 4
  {
    var k := if lr == 'R' then 1 else -1;
    var q := a / 4;
    assert a == 4 * q + a % 4;
    assert a + k == 4 * q + (a % 4 + k);
    if a % 4 + k == 4 {
      assert a + k == 4 * (q + 1);
    } else if a % 4 + k == -1 {
      assert a + k == 4 * (q - 1) + 3;
    }
  }

  // ---------------------------------------------------------------------
  // Reference quantities of an instruction string

  /** How many times `c` occurs in `s`. */
  function Occurrences(s: string, c: char): nat
  {
    multiset(s)[c]
  }

  /** The heading after obeying every L and R of `s`, starting from `d`. */
  function HeadingAfter(d: int, s: string): int
  {
    (d + Occurrences(s, 'R') - Occurrences(s, 'L')) % 4
  }

  /** The heading of each forward move of `s`, in order: the i-th `M` is taken
      facing the heading reached by the turns before it. */
  function MoveHeadings(d: int, s: string): seq<int>
  {
    if s == [] then []
    else
      var init := s[..|s| - 1];
      MoveHeadings(d, init) + (if s[|s| - 1] == 'M' then [HeadingAfter(d, init)] else [])
  }

  /** How many forward moves of `s` are taken facing heading `h`. */
  function MovesFacing(d: int, s: string, h: int): int
  {
    multiset(MoveHeadings(d, s))[h] as int
  }

  /** The number of maximal blocks of consecutive `M`s in `s`. */
  function MoveRuns(s: string): nat
  {
    if s == [] then 0
    else
      var init := s[..|s| - 1];
      MoveRuns(init) + (if s[|s| - 1] == 'M' && (init == [] || init[|init| - 1] != 'M') then 1 else 0)
  }

  /** The number of `M`s at the end of `s`. */
  function TrailingMoves(s: string): nat
  {
    if s == [] || s[|s| - 1] != 'M' then 0 else TrailingMoves(s[..|s| - 1]) + 1
  }

  /** `count` copies of `d`. */
  function Repeat(d: int, count: int): (r: seq<int>)
    ensures |r| == if count < 0 then 0 else count
    ensures forall i :: 0 <= i < |r| ==> r[i] == d
  {
    if count <= 0 then [] else Repeat(d, count - 1) + [d]
  }

  /** The heading of every single move a summary stands for, in order. */
  function Expand(summary: seq<Segment>): seq<int>
  {
    if summary == [] then []
    else
      var last := summary[|summary| - 1];
      Expand(summary[..|summary| - 1]) + Repeat(last.direction, last.count)
  }

  /** Total number of moves in a summary. */
  function Length(summary: seq<Segment>): int
  {
    if summary == [] then 0
    else Length(summary[..|summary| - 1]) + summary[|summary| - 1].count
  }

  // ---------------------------------------------------------------------
  // The loop of translate_movements, as a state machine

  /** The variables of the loop: the summary so far, the pending run length
      `n` and the current heading. */
  datatype ScanState = ScanState(summary: seq<Segment>, n: int, direction: int)

  /** One iteration of the loop on the popped character `c`. */
  function Feed(st: ScanState, c: char): ScanState
  {
    if c == 'L' || c == 'R' then
      ScanState(if st.n > 0 then st.summary + [Segment(st.direction, st.n)] else st.summary,
                0, Turn(st.direction, c))
    else if c == 'M' then
      st.(n := st.n + 1)
    else
      st
  }

  /** The loop state after consuming `s` from left to right, starting from `d`. */
  function Scan(d: int, s: string): ScanState
  {
    if s == [] then ScanState([], 0, d) else Feed(Scan(d, s[..|s| - 1]), s[|s| - 1])
  }

  /** What `translate_movements` returns for instructions `s` and initial
      heading `d`: the summary, with the pending run emitted at the end, and the
      final heading. */
  function Compile(d: int, s: string): (seq<Segment>, int)
  {
    var st := Scan(d, s);
    (if st.n > 0 then st.summary + [Segment(st.direction, st.n)] else st.summary, st.direction)
  }

  // ---------------------------------------------------------------------
  // What the loop keeps true

  /** The loop keeps the heading equal to the start heading turned by every
      L and R read so far. */
  lemma {:induction false} ScanHeading(d: int, s: string)
    requires 0 <= d < 4
    ensures Scan(d, s).direction == HeadingAfter(d, s)
  {
    if s == [] {
      assert HeadingAfter(d, s) == d;
    } else {
      var init, c := s[..|s| - 1], s[|s| - 1];
      assert s == init + [c];
      ScanHeading(d, init);
      assert multiset(s) == multiset(init) + multiset{c};
      if c == 'L' || c == 'R' {
        TurnOfSum(d + Occurrences(init, 'R') - Occurrences(init, 'L'), c);
      }
    }
  }

  /** The pending run length is never negative. */
  lemma {:induction false} ScanPendingNatural(d: int, s: string)
    ensures Scan(d, s).n >= 0
  {
    if s != [] {
      ScanPendingNatural(d, s[..|s| - 1]);
    }
  }

  /** Every segment the loop emits carries at least one move. */
  lemma {:induction false} ScanSegmentsNonEmpty(d: int, s: string)
    ensures forall i :: 0 <= i < |Scan(d, s).summary| ==> Scan(d, s).summary[i].count >= 1
  {
    if s != [] {
      var init, c := s[..|s| - 1], s[|s| - 1];
      ScanSegmentsNonEmpty(d, init);
      var st := Scan(d, init);
      assert Scan(d, s) == Feed(st, c);
      if (c == 'L' || c == 'R') && st.n > 0 {
        var summary' := st.summary + [Segment(st.direction, st.n)];
        assert forall i :: 0 <= i < |summary'| ==> summary'[i].count >= 1 by {
          forall i | 0 <= i < |summary'| ensures summary'[i].count >= 1 {
            if i < |st.summary| {
              assert summary'[i] == st.summary[i];
            }
          }
        }
      }
    }
  }

  /** The loop loses no move: the summary and the pending run together hold
      every `M` read so far. */
  lemma {:induction false} ScanLength(d: int, s: string)
    ensures var st := Scan(d, s); Length(st.summary) + st.n == Occurrences(s, 'M')
  {
    if s != [] {
      var init, c := s[..|s| - 1], s[|s| - 1];
      assert s == init + [c];
      ScanLength(d, init);
      ScanPendingNatural(d, init);
      var st := Scan(d, init);
      assert multiset(s) == multiset(init) + multiset{c};
      if (c == 'L' || c == 'R') && st.n > 0 {
        var summary' := st.summary + [Segment(st.direction, st.n)];
        assert summary'[..|summary'| - 1] == st.summary;
      }
    }
  }

  /** The three counting facts the loop keeps, together. */
  lemma ScanCounts(d: int, s: string)
    ensures var st := Scan(d, s);
      && (forall i :: 0 <= i < |st.summary| ==> st.summary[i].count >= 1)
      && st.n >= 0
      && Length(st.summary) + st.n == Occurrences(s, 'M')
  {
    ScanSegmentsNonEmpty(d, s);
    ScanPendingNatural(d, s);
    ScanLength(d, s);
  }

  /** A turn moves the pending run into the summary: the moves that the state
      stands for are unchanged. */
  lemma FeedTurnKeepsMoves(st: ScanState, c: char)
    requires c == 'L' || c == 'R'
    requires st.n >= 0
    ensures var st' := Feed(st, c);
      Expand(st'.summary) + Repeat(st'.direction, st'.n) == Expand(st.summary) + Repeat(st.direction, st.n)
  {
    var st' := Feed(st, c);
    if st.n > 0 {
      assert st'.summary[..|st'.summary| - 1] == st.summary;
    }
    assert Repeat(st'.direction, 0) == [];
    assert Expand(st'.summary) + [] == Expand(st'.summary);
    assert Expand(st.summary) + Repeat(st.direction, 0) == Expand(st.summary);
  }

  /** A move lengthens the pending run: the state stands for one more move,
      under the current heading. */
  lemma FeedMoveAddsMove(st: ScanState)
    requires st.n >= 0
    ensures var st' := Feed(st, 'M');
      Expand(st'.summary) + Repeat(st'.direction, st'.n) ==
        Expand(st.summary) + Repeat(st.direction, st.n) + [st.direction]
  {
    assert Repeat(st.direction, st.n + 1) == Repeat(st.direction, st.n) + [st.direction];
  }

  /** The loop keeps the summary plus the pending run standing for exactly the
      moves read so far, in order, each under the heading it was taken in. */
  lemma {:induction false} ScanMoves(d: int, s: string)
    requires 0 <= d < 4
    ensures var st := Scan(d, s);
      Expand(st.summary) + Repeat(st.direction, st.n) == MoveHeadings(d, s)
  {
    if s != [] {
      var init, c := s[..|s| - 1], s[|s| - 1];
      ScanMoves(d, init);
      ScanPendingNatural(d, init);
      var st := Scan(d, init);
      if c == 'L' || c == 'R' {
        FeedTurnKeepsMoves(st, c);
      } else if c == 'M' {
        ScanHeading(d, init);
        FeedMoveAddsMove(st);
      }
    }
  }

  /** The part of the invariant that needs the alphabet {L, R, M}: the pending
      run is the length of the block of `M`s at the end, and the segments
      emitted, plus one for a non-empty pending run, number the maximal
      blocks of `M`s. */
  lemma {:induction false} ScanRuns(d: int, s: string)
    requires AllInstructions(s)
    ensures var st := Scan(d, s);
      && st.n == TrailingMoves(s)
      && |st.summary| + (if st.n > 0 then 1 else 0) == MoveRuns(s)
  {
    if s != [] {
      var init, c := s[..|s| - 1], s[|s| - 1];
      assert IsInstruction(c);
      assert AllInstructions(init) by {
        forall i | 0 <= i < |init| ensures IsInstruction(init[i]) {
          assert init[i] == s[i];
        }
      }
      ScanRuns(d, init);
      assert init == [] ==> TrailingMoves(init) == 0;
      assert init != [] && init[|init| - 1] != 'M' ==> TrailingMoves(init) == 0;
    }
  }

  // ---------------------------------------------------------------------
  // Properties of the compiled summary

  /** Every segment carries at least one move. */
  lemma CompileSegmentsNonEmpty(d: int, s: string)
    ensures forall i :: 0 <= i < |Compile(d, s).0| ==> Compile(d, s).0[i].count >= 1
  {
    ScanCounts(d, s);
  }

  /** The segment lengths add up to the number of `M`s. */
  lemma CompileCountsMoves(d: int, s: string)
    ensures Length(Compile(d, s).0) == Occurrences(s, 'M')
  {
    ScanCounts(d, s);
    var st := Scan(d, s);
    if st.n > 0 {
      var summary := st.summary + [Segment(st.direction, st.n)];
      assert summary[..|summary| - 1] == st.summary;
    }
  }

  /** The summary stands for exactly the moves of `s`, in order, each under the
      heading the turns before it produce. */
  lemma CompileMoveHeadings(d: int, s: string)
    requires 0 <= d < 4
    ensures Expand(Compile(d, s).0) == MoveHeadings(d, s)
  {
    ScanMoves(d, s);
    var st := Scan(d, s);
    if st.n > 0 {
      var summary := st.summary + [Segment(st.direction, st.n)];
      assert summary[..|summary| - 1] == st.summary;
    } else {
      assert Repeat(st.direction, st.n) == [];
      assert Expand(st.summary) + [] == Expand(st.summary);
    }
  }

  /** The final heading is the start heading plus the R turns minus the L
      turns, modulo 4. */
  lemma CompileFinalHeading(d: int, s: string)
    requires 0 <= d < 4
    ensures Compile(d, s).1 == (d + Occurrences(s, 'R') - Occurrences(s, 'L')) % 4
  {
    ScanHeading(d, s);
  }

  /** One segment per maximal block of `M`s: turns never make a segment of
      their own, not even back to back. */
  lemma CompileOneSegmentPerRun(d: int, s: string)
    requires AllInstructions(s)
    ensures |Compile(d, s).0| == MoveRuns(s)
  {
    ScanRuns(d, s);
  }

  /** Instructions without a forward move compile to an empty summary. */
  lemma CompileRotationsOnly(d: int, s: string)
    requires 'M' !in s
    ensures Compile(d, s).0 == []
  {
    CompileSegmentsNonEmpty(d, s);
    CompileCountsMoves(d, s);
    var summary := Compile(d, s).0;
    assert Occurrences(s, 'M') == 0;
    if summary != [] {
      LengthNonNegative(summary[..|summary| - 1]);
      assert false;
    }
  }

  /** A summary of non-empty runs has a non-negative length. */
  lemma {:induction false} LengthNonNegative(summary: seq<Segment>)
    requires forall i :: 0 <= i < |summary| ==> summary[i].count >= 1
    ensures Length(summary) >= |summary|
  {
    if summary != [] {
      LengthNonNegative(summary[..|summary| - 1]);
    }
  }

  // ---------------------------------------------------------------------
  // The method

  /** `translate_movements`: pops the stack empty, one character per
      iteration, and returns the summary and the final heading. Because
      `read_movements` reversed the line, the pops see the characters of the
      line from left to right. */
  method TranslateMovements(movements: MoveStack, direction: int)
    returns (summary: seq<Segment>, finalDirection: int)
    modifies movements
    ensures movements.items == []
    ensures (summary, finalDirection) == Compile(direction, Reversed(old(movements.items)))
  {
    ghost var stack := movements.items;
    summary := [];
    var n := 0;
    var heading := direction;
    while |movements.items| > 0
      invariant movements.items == stack[..|movements.items|]
      invariant ScanState(summary, n, heading)
             == Scan(direction, Reversed(stack[|movements.items|..]))
      decreases |movements.items|
    {
      ghost var m := |movements.items|;
      var curr := movements.Pop();
      assert curr == stack[m - 1] && movements.items == stack[..m - 1];
      ghost var done := Reversed(stack[m..]);
      assert stack[m - 1..][1..] == stack[m..];
      assert Reversed(stack[m - 1..]) == done + [curr];
      assert (done + [curr])[..|done|] == done;
      if curr == 'L' || curr == 'R' {
        if n > 0 {
          summary := summary + [Segment(heading, n)];
        }
        heading := Turn(heading, curr);
        n := 0;
      } else if curr == 'M' {
        n := n + 1;
      }
    }
    assert stack[0..] == stack;
    if n > 0 {
      summary := summary + [Segment(heading, n)];
    }
    finalDirection := heading;
  }
}

/** The position integrator of rover.py (`process_summary`): one axis at a
    time, bounds checked after every segment. */
module Integrator {
  import opened RoverTypes

  /** What one segment does to the coordinate of the axis whose decreasing
      heading is `minus` and increasing heading is `plus`. */
  function Delta(seg: Segment, minus: int, plus: int): int
  {
    if seg.direction == minus then -seg.count
    else if seg.direction == plus then seg.count
    else 0
  }

  /** The signed sum of the displacements along the axis. */
  function Net(summary: seq<Segment>, minus: int, plus: int): int
  {
    if summary == [] then 0
    else Net(summary[..|summary| - 1], minus, plus) + Delta(summary[|summary| - 1], minus, plus)
  }

  predicate InRange(p: int, aMax: int)
  {
    1 <= p <= aMax
  }

  /** Some non-empty prefix of the summary leaves the axis range [1, aMax]. */
  predicate Escapes(summary: seq<Segment>, minus: int, plus: int, pos: int, aMax: int)
  {
    exists k :: 1 <= k <= |summary| && !InRange(pos + Net(summary[..k], minus, plus), aMax)
  }

  /** The value `process_summary` returns: the sentinel -1 when some prefix
      leaves the range, otherwise the start plus the net displacement. */
  function AxisResult(summary: seq<Segment>, minus: int, plus: int, pos: int, aMax: int): int
  {
    if Escapes(summary, minus, plus, pos, aMax) then -1 else pos + Net(summary, minus, plus)
  }

  /** `process_summary`: walks the segments left to right, moving `pos` by the
      segments of its own axis, and returns -1 at the first segment after which
      `pos` is out of [1, a_max]. */
  method ProcessSummary(summary: seq<Segment>, minus: int, plus: int, pos: int, aMax: int)
    returns (r: int)
    ensures Escapes(summary, minus, plus, pos, aMax) ==> r == -1
    ensures !Escapes(summary, minus, plus, pos, aMax) ==> r == pos + Net(summary, minus, plus)
    ensures r == -1 || InRange(r, aMax) || (summary == [] && r == pos)
  {
    var p := pos;
    for i := 0 to |summary|
      invariant p == pos + Net(summary[..i], minus, plus)
      invariant forall k :: 1 <= k <= i ==> InRange(pos + Net(summary[..k], minus, plus), aMax)
    {
      assert summary[..i + 1][..i] == summary[..i];
      var seg := summary[i];
      if seg.direction == minus {
        p := p - seg.count;
      } else if seg.direction == plus {
        p := p + seg.count;
      }
      if p < 1 || p > aMax {
        return -1;
      }
    }
    assert summary[..|summary|] == summary;
    return p;
  }

  /** Started in range, the walk ends in range or reports -1. */
  lemma AxisResultInRange(summary: seq<Segment>, minus: int, plus: int, pos: int, aMax: int)
    requires InRange(pos, aMax)
    ensures var r := AxisResult(summary, minus, plus, pos, aMax);
      r == -1 || InRange(r, aMax)
  {
    if summary != [] && !Escapes(summary, minus, plus, pos, aMax) {
      assert summary[..|summary|] == summary;
    }
  }

  /** Once a prefix has left the range, no later segment can bring the walk
      back: the result stays -1 whatever follows. */
  lemma EscapeIsFinal(summary: seq<Segment>, more: seq<Segment>, minus: int, plus: int, pos: int, aMax: int)
    requires Escapes(summary, minus, plus, pos, aMax)
    ensures AxisResult(summary + more, minus, plus, pos, aMax) == -1
  {
    var k :| 1 <= k <= |summary| && !InRange(pos + Net(summary[..k], minus, plus), aMax);
    assert (summary + more)[..k] == summary[..k];
  }

  /** Going west 5 and back east 5 from x = 2 on a width-8 grid ends where it
      started, yet the walk reports -1: the check runs after every segment. */
  lemma ShortCircuitExample()
    ensures var summary := [Segment(West, 5), Segment(East, 5)];
      && 2 + Net(summary, West, East) == 2
      && AxisResult(summary, West, East, 2, 8) == -1
  {
    var summary := [Segment(West, 5), Segment(East, 5)];
    assert summary[..1] == [Segment(West, 5)];
    assert summary[..1][..0] == [];
    assert !InRange(2 + Net(summary[..1], West, East), 8);
  }

  /** The net displacement of a concatenation is the sum of the parts. */
  lemma {:induction false} NetConcat(a: seq<Segment>, b: seq<Segment>, minus: int, plus: int)
    ensures Net(a + b, minus, plus) == Net(a, minus, plus) + Net(b, minus, plus)
  {
    if b != [] {
      var ab := a + b;
      assert ab[..|ab| - 1] == a + b[..|b| - 1];
      NetConcat(a, b[..|b| - 1], minus, plus);
    } else {
      assert a + b == a;
    }
  }

  /** An off-axis segment moves nothing: the prefixes of the summary with it
      and without it have the same net displacements, one index apart past it. */
  lemma PrefixNetSkip(a: seq<Segment>, s: Segment, b: seq<Segment>, minus: int, plus: int, k: int)
    requires s.direction != minus && s.direction != plus
    requires 0 <= k <= |a| + 1 + |b|
    ensures k <= |a| ==> Net((a + [s] + b)[..k], minus, plus) == Net((a + b)[..k], minus, plus)
    ensures k > |a| ==> Net((a + [s] + b)[..k], minus, plus) == Net((a + b)[..k - 1], minus, plus)
  {
    var full, short := a + [s] + b, a + b;
    if k <= |a| {
      assert full[..k] == a[..k] == short[..k];
    } else {
      var j := k - 1 - |a|;
      assert Net([s], minus, plus) == 0 by {
        assert [s][..0] == [];
      }
      assert full[..k] == (a + [s]) + b[..j];
      assert short[..k - 1] == a + b[..j];
      NetConcat(a, [s], minus, plus);
      NetConcat(a + [s], b[..j], minus, plus);
      NetConcat(a, b[..j], minus, plus);
    }
  }

  /** A prefix that leaves the range witnesses an escape. */
  lemma EscapeAt(summary: seq<Segment>, minus: int, plus: int, pos: int, aMax: int, k: int)
    requires 1 <= k <= |summary| && !InRange(pos + Net(summary[..k], minus, plus), aMax)
    ensures Escapes(summary, minus, plus, pos, aMax)
  {
  }

  /** An escape of the walk with an off-axis segment, at prefix `k`, is an
      escape of the walk without it. */
  lemma EscapeWithoutOffAxisAt(a: seq<Segment>, s: Segment, b: seq<Segment>,
                               minus: int, plus: int, pos: int, aMax: int, k: int)
    requires s.direction != minus && s.direction != plus
    requires InRange(pos, aMax)
    requires 1 <= k <= |a| + 1 + |b|
    requires !InRange(pos + Net((a + [s] + b)[..k], minus, plus), aMax)
    ensures Escapes(a + b, minus, plus, pos, aMax)
  {
    var full, short := a + [s] + b, a + b;
    PrefixNetSkip(a, s, b, minus, plus, k);
    if k <= |a| {
      EscapeAt(short, minus, plus, pos, aMax, k);
    } else {
      var j := k - 1;
      assert Net(full[..k], minus, plus) == Net(short[..j], minus, plus);
      assert Net(short[..0], minus, plus) == 0 by {
        assert short[..0] == [];
      }
      assert j != 0;
      EscapeAt(short, minus, plus, pos, aMax, j);
    }
  }

  /** Removing an off-axis segment keeps an escape an escape. */
  lemma EscapeWithoutOffAxis(a: seq<Segment>, s: Segment, b: seq<Segment>,
                             minus: int, plus: int, pos: int, aMax: int)
    requires s.direction != minus && s.direction != plus
    requires InRange(pos, aMax)
    requires Escapes(a + [s] + b, minus, plus, pos, aMax)
    ensures Escapes(a + b, minus, plus, pos, aMax)
  {
    var full := a + [s] + b;
    var k :| 1 <= k <= |full| && !InRange(pos + Net(full[..k], minus, plus), aMax);
    EscapeWithoutOffAxisAt(a, s, b, minus, plus, pos, aMax, k);
  }

  /** Inserting an off-axis segment keeps an escape an escape. */
  lemma EscapeWithOffAxis(a: seq<Segment>, s: Segment, b: seq<Segment>,
                          minus: int, plus: int, pos: int, aMax: int)
    requires s.direction != minus && s.direction != plus
    requires Escapes(a + b, minus, plus, pos, aMax)
    ensures Escapes(a + [s] + b, minus, plus, pos, aMax)
  {
    var full, short := a + [s] + b, a + b;
    var k :| 1 <= k <= |short| && !InRange(pos + Net(short[..k], minus, plus), aMax);
    var k' := if k <= |a| then k else k + 1;
    PrefixNetSkip(a, s, b, minus, plus, k');
    EscapeAt(full, minus, plus, pos, aMax, k');
  }

  /** A segment in one of the two other headings leaves the axis alone: taking
      it out of the summary changes neither the result nor whether the walk
      fails, provided the walk starts in range. */
  lemma OffAxisSegmentIgnored(a: seq<Segment>, s: Segment, b: seq<Segment>,
                              minus: int, plus: int, pos: int, aMax: int)
    requires s.direction != minus && s.direction != plus
    requires InRange(pos, aMax)
    ensures AxisResult(a + [s] + b, minus, plus, pos, aMax) == AxisResult(a + b, minus, plus, pos, aMax)
  {
    var full, short := a + [s] + b, a + b;
    if Escapes(full, minus, plus, pos, aMax) {
      EscapeWithoutOffAxis(a, s, b, minus, plus, pos, aMax);
    } else if Escapes(short, minus, plus, pos, aMax) {
      EscapeWithOffAxis(a, s, b, minus, plus, pos, aMax);
    } else {
      PrefixNetSkip(a, s, b, minus, plus, |full|);
      assert full[..|full|] == full && short[..|short|] == short;
    }
  }

  /** A summary with no segment on this axis leaves a coordinate that starts in
      range where it is. */
  lemma {:induction false} OffAxisOnly(summary: seq<Segment>, minus: int, plus: int, pos: int, aMax: int)
    requires forall i :: 0 <= i < |summary| ==> summary[i].direction != minus && summary[i].direction != plus
    requires InRange(pos, aMax)
    ensures AxisResult(summary, minus, plus, pos, aMax) == pos
  {
    if summary != [] {
      var init, last := summary[..|summary| - 1], summary[|summary| - 1];
      OffAxisOnly(init, minus, plus, pos, aMax);
      assert summary == init + [last] + [];
      assert init + [] == init;
      OffAxisSegmentIgnored(init, last, [], minus, plus, pos, aMax);
    }
  }

  /** The net displacement of the first `k` segments is the first segment's
      displacement plus that of the next `k - 1`. */
  lemma NetFront(summary: seq<Segment>, minus: int, plus: int, k: int)
    requires 1 <= k <= |summary|
    ensures Net(summary[..k], minus, plus) ==
            Delta(summary[0], minus, plus) + Net(summary[1..][..k - 1], minus, plus)
  {
    var first, rest := [summary[0]], summary[1..][..k - 1];
    assert summary[..k] == first + rest;
    assert first[..0] == [];
    NetConcat(first, rest, minus, plus);
  }

  /** An escape of the whole walk is an escape at the first segment or an
      escape of the rest. */
  lemma EscapeSplitsAtFront(summary: seq<Segment>, minus: int, plus: int, pos: int, aMax: int)
    requires summary != []
    requires Escapes(summary, minus, plus, pos, aMax)
    ensures var p := pos + Delta(summary[0], minus, plus);
      !InRange(p, aMax) || Escapes(summary[1..], minus, plus, p, aMax)
  {
    var rest := summary[1..];
    var p := pos + Delta(summary[0], minus, plus);
    var k :| 1 <= k <= |summary| && !InRange(pos + Net(summary[..k], minus, plus), aMax);
    NetFront(summary, minus, plus, k);
    assert rest[..0] == [];
    if k > 1 {
      assert 1 <= k - 1 <= |rest| && !InRange(p + Net(rest[..k - 1], minus, plus), aMax);
    }
  }

  /** An escape at the first segment, or of the rest, is an escape of the walk. */
  lemma EscapeJoinsAtFront(summary: seq<Segment>, minus: int, plus: int, pos: int, aMax: int)
    requires summary != []
    requires var p := pos + Delta(summary[0], minus, plus);
      !InRange(p, aMax) || Escapes(summary[1..], minus, plus, p, aMax)
    ensures Escapes(summary, minus, plus, pos, aMax)
  {
    var rest := summary[1..];
    var p := pos + Delta(summary[0], minus, plus);
    if !InRange(p, aMax) {
      NetFront(summary, minus, plus, 1);
      assert rest[..0] == [];
      assert !InRange(pos + Net(summary[..1], minus, plus), aMax);
    } else {
      var j :| 1 <= j <= |rest| && !InRange(p + Net(rest[..j], minus, plus), aMax);
      NetFront(summary, minus, plus, j + 1);
      assert !InRange(pos + Net(summary[..j + 1], minus, plus), aMax);
    }
  }

  /** The walk seen from the front, as the loop of `process_summary` runs it:
      apply the first segment, stop with -1 if out of range, else go on from
      the new coordinate with the remaining segments. */
  lemma AxisResultFirst(summary: seq<Segment>, minus: int, plus: int, pos: int, aMax: int)
    requires summary != []
    ensures var p := pos + Delta(summary[0], minus, plus);
      AxisResult(summary, minus, plus, pos, aMax) ==
        if !InRange(p, aMax) then -1 else AxisResult(summary[1..], minus, plus, p, aMax)
  {
    var rest := summary[1..];
    var p := pos + Delta(summary[0], minus, plus);
    if Escapes(summary, minus, plus, pos, aMax) {
      EscapeSplitsAtFront(summary, minus, plus, pos, aMax);
    } else {
      if !InRange(p, aMax) || Escapes(rest, minus, plus, p, aMax) {
        EscapeJoinsAtFront(summary, minus, plus, pos, aMax);
      }
      NetFront(summary, minus, plus, |summary|);
      assert summary[..|summary|] == summary && rest[..|rest|] == rest;
    }
  }
}

/** The handful of string operations rover.py borrows from Python: reading a
    line from a stream, the `$` anchor of its two patterns, `str.strip`,
    `list.reverse` and `%s` of an integer. */
module Text {

  /** No newline except possibly as the last character. */
  predicate IsLine(l: string)
  {
    forall i :: 0 <= i < |l| - 1 ==> l[i] != '\n'
  }

  /** `readline()` on an in-memory stream holding `s`: the text up to and
      including the first newline, or everything left when there is none
      (the empty string at end of input). Returns the line and the rest. */
  function ReadLine(s: string): (r: (string, string))
    ensures r.0 + r.1 == s
    ensures IsLine(r.0)
    ensures r.0 == [] ==> s == []
    ensures r.0 != [] && r.0[|r.0| - 1] != '\n' ==> r.1 == []
  {
    if s == [] then ([], [])
    else if s[0] == '\n' then ([s[0]], s[1..])
    else
      var (l, rest) := ReadLine(s[1..]);
      ([s[0]] + l, rest)
  }

  /** Reading a line from a stream that starts with a complete line gives that
      line back and leaves the rest of the stream untouched. */
  lemma {:induction false} ReadLineOfLine(l: string, rest: string)
    requires IsLine(l)
    requires rest == [] || (l != [] && l[|l| - 1] == '\n')
    ensures ReadLine(l + rest) == (l, rest)
  {
    if l == [] {
    } else if l[0] == '\n' {
      assert |l| == 1;
      assert (l + rest)[1..] == rest;
    } else {
      assert (l + rest)[1..] == l[1..] + rest;
      ReadLineOfLine(l[1..], rest);
      assert [l[0]] + l[1..] == l;
    }
  }

  /** The text a trailing-`$` pattern sees: Python's `$` also matches just
      before one final newline, so that newline is dropped. */
  function Body(line: string): (b: string)
    ensures b == line || b + "\n" == line
    ensures |b| == |line| || |b| == |line| - 1
  {
    if line != [] && line[|line| - 1] == '\n' then line[..|line| - 1] else line
  }

  /** The characters Python 2's `str.strip()` removes. */
  predicate IsSpace(c: char)
  {
    c == ' ' || c == '\t' || c == '\n' || c == '\r' || c == '\U{B}' || c == '\U{C}'
  }

  /** `s` without its leading whitespace. */
  function StripLeft(s: string): (r: string)
    ensures |r| <= |s| && r == s[|s| - |r|..]
    ensures forall i :: 0 <= i < |s| - |r| ==> IsSpace(s[i])
    ensures r == [] || !IsSpace(r[0])
  {
    if s != [] && IsSpace(s[0]) then StripLeft(s[1..]) else s
  }

  /** `s` without its trailing whitespace. */
  function StripRight(s: string): (r: string)
    ensures |r| <= |s| && r == s[..|r|]
    ensures forall i :: |r| <= i < |s| ==> IsSpace(s[i])
    ensures r == [] || !IsSpace(r[|r| - 1])
  {
    if s != [] && IsSpace(s[|s| - 1]) then StripRight(s[..|s| - 1]) else s
  }

  /** `r` is the slice of `s` starting at `i`, and everything of `s` before
      and after that slice is whitespace. */
  predicate CutsWhitespace(s: string, r: string, i: int)
  {
    && 0 <= i <= |s| - |r|
    && r == s[i..i + |r|]
    && (forall k :: 0 <= k < i ==> IsSpace(s[k]))
    && (forall k :: i + |r| <= k < |s| ==> IsSpace(s[k]))
  }

  /** `s.strip()`: a slice of `s` that starts and ends with a non-space
      character, everything cut away being whitespace. */
  function Strip(s: string): (r: string)
    ensures r == [] || (!IsSpace(r[0]) && !IsSpace(r[|r| - 1]))
    ensures r == [] <==> forall i :: 0 <= i < |s| ==> IsSpace(s[i])
    ensures forall c :: c in r ==> c in s
  {
    var t := StripLeft(s);
    var r := StripRight(t);
    assert r != [] ==> r[0] == t[0];
    assert r == [] ==> forall i :: 0 <= i < |s| ==> IsSpace(s[i]) by {
      if r == [] {
        assert t == [];
      }
    }
    r
  }

  /** `s.strip()` is exactly the part of `s` between its leading and its
      trailing whitespace. */
  lemma StripCutsWhitespace(s: string)
    ensures exists i :: CutsWhitespace(s, Strip(s), i)
  {
    var t := StripLeft(s);
    var r := StripRight(t);
    var i := |s| - |t|;
    assert Strip(s) == r;
    assert t == s[i..] && r == t[..|r|];
    assert r == s[i..i + |r|];
    forall k | i + |r| <= k < |s|
      ensures IsSpace(s[k])
    {
      assert s[k] == t[k - i];
    }
    assert CutsWhitespace(s, r, i);
  }

  /** Stripping text that has no whitespace at either end changes nothing. */
  lemma StripUnpadded(s: string)
    requires s == [] || (!IsSpace(s[0]) && !IsSpace(s[|s| - 1]))
    ensures Strip(s) == s
  {
    assert StripLeft(s) == s;
    assert StripRight(s) == s;
  }

  /** A line ending in a newline strips to its text when that text is unpadded. */
  lemma StripLine(s: string)
    requires s == [] || (!IsSpace(s[0]) && !IsSpace(s[|s| - 1]))
    ensures Strip(s + "\n") == s
  {
    var t := s + "\n";
    if s == [] {
      assert StripLeft(t) == [];
    } else {
      assert StripLeft(t) == t;
      assert t[..|t| - 1] == s;
      assert StripRight(t) == StripRight(s);
      StripUnpadded(s);
    }
  }

  /** `list.reverse()` applied to a copy of `s`. */
  function Reversed<T>(s: seq<T>): (r: seq<T>)
    ensures |r| == |s|
    ensures forall i :: 0 <= i < |s| ==> r[i] == s[|s| - 1 - i]
  {
    if s == [] then [] else Reversed(s[1..]) + [s[0]]
  }

  /** Reversing twice restores the original order. */
  lemma ReversedTwice<T>(s: seq<T>)
    ensures Reversed(Reversed(s)) == s
  {
    var r := Reversed(Reversed(s));
    assert forall i :: 0 <= i < |s| ==> r[i] == s[i];
  }

  function DigitChar(d: int): (c: char)
    requires 0 <= d <= 9
    ensures '0' <= c <= '9' && c as int - '0' as int == d
  {
    (d + '0' as int) as char
  }

  /** Decimal numeral of a natural number, most significant digit first. */
  function Decimal(n: nat): (s: string)
    ensures s != []
    ensures forall i :: 0 <= i < |s| ==> '0' <= s[i] <= '9'
    ensures n < 10 ==> s == [DigitChar(n)]
  {
    if n < 10 then [DigitChar(n)] else Decimal(n / 10) + [DigitChar(n % 10)]
  }

  /** `"%s" % n` for an integer `n`. */
  function IntToString(n: int): (s: string)
    ensures s != []
    ensures n >= 0 ==> s == Decimal(n)
    ensures n < 0 ==> s[0] == '-'
  {
    if n < 0 then "-" + Decimal(-n) else Decimal(n)
  }
}

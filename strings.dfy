/** Text utilities shared by the three engines: indentation, concatenation,
    Python's `str.splitlines(True)` on byte strings and `str.rstrip(c)`. */
module Strings {

  /** `' ' * n`. */
  function Spaces(n: nat): (r: string)
    ensures |r| == n
    ensures forall i :: 0 <= i < n ==> r[i] == ' '
  {
    if n == 0 then "" else Spaces(n - 1) + " "
  }

  /** `''.join(ss)`. */
  function Concat(ss: seq<string>): string
  {
    if ss == [] then "" else ss[0] + Concat(ss[1..])
  }

  /** `sep.join(ss)`. */
  function Join(ss: seq<string>, sep: string): string
  {
    if ss == [] then ""
    else if |ss| == 1 then ss[0]
    else ss[0] + sep + Join(ss[1..], sep)
  }

  lemma EmptyLeft(s: string)
    ensures "" + s == s
  {
  }

  lemma AppendAssoc(a: string, b: string, c: string)
    ensures a + (b + c) == a + b + c
  {
  }

  lemma {:induction false} ConcatAppend(a: seq<string>, b: seq<string>)
    ensures Concat(a + b) == Concat(a) + Concat(b)
  {
    if a == [] {
      assert a + b == b;
    } else {
      assert (a + b)[1..] == a[1..] + b;
      ConcatAppend(a[1..], b);
    }
  }

  /** A line boundary for `splitlines` on a byte string. */
  predicate IsBreak(c: char)
  {
    c == '\n' || c == '\r'
  }

  predicate NoBreak(s: string)
  {
    forall i :: 0 <= i < |s| ==> !IsBreak(s[i])
  }

  /** Length of the first line of `s`, including its terminator
      (`\n`, `\r` or `\r\n`) when there is one. */
  function FirstLineLength(s: string): (n: nat)
    requires s != ""
    ensures 0 < n <= |s|
    ensures n < |s| ==> IsBreak(s[n - 1])
    ensures forall i :: 0 <= i < n - 1 && IsBreak(s[i]) ==> i == n - 2 && s[i] == '\r' && s[n - 1] == '\n'
    ensures n < |s| && s[n - 1] == '\r' ==> s[n] != '\n'
    decreases |s|
  {
    if s[0] == '\n' then 1
    else if s[0] == '\r' then (if |s| > 1 && s[1] == '\n' then 2 else 1)
    else if |s| == 1 then 1
    else 1 + FirstLineLength(s[1..])
  }

  /** `s.splitlines(True)` for a byte string: the lines of `s`, each keeping
      its terminator; no empty line is produced, not even for `""`. */
  function SplitLines(s: string): (lines: seq<string>)
    ensures forall i :: 0 <= i < |lines| ==> lines[i] != ""
    ensures s == "" <==> lines == []
    decreases |s|
  {
    if s == "" then []
    else
      var n := FirstLineLength(s);
      [s[..n]] + SplitLines(s[n..])
  }

  /** Joining the lines again gives back the text: `splitlines(True)` loses nothing. */
  lemma {:induction false} SplitLinesConcat(s: string)
    ensures Concat(SplitLines(s)) == s
    decreases |s|
  {
    if s != "" {
      var n := FirstLineLength(s);
      SplitLinesConcat(s[n..]);
      assert s == s[..n] + s[n..];
    }
  }

  /** Where `splitlines(True)` cuts: every line but the last ends in a
      terminator, no line holds a terminator before its end except the `\r`
      of a final `\r\n`, and a line ending in `\r` is never followed by one
      starting with `\n` (that pair is one terminator). */
  lemma SplitLinesBreaks(s: string)
    ensures forall i :: 0 <= i < |SplitLines(s)| - 1 ==> LastIsBreak(SplitLines(s)[i])
    ensures forall i :: 0 <= i < |SplitLines(s)| ==> BreaksAtEnd(SplitLines(s)[i])
    ensures forall i :: 0 <= i < |SplitLines(s)| - 1 ==> !CrThenLf(SplitLines(s)[i], SplitLines(s)[i + 1])
  {
    SplitLinesEnd(s);
    SplitLinesInner(s);
    SplitLinesPairs(s);
  }

  lemma {:induction false} SplitLinesEnd(s: string)
    ensures forall i :: 0 <= i < |SplitLines(s)| - 1 ==> LastIsBreak(SplitLines(s)[i])
    decreases |s|
  {
    if s != "" {
      var n := FirstLineLength(s);
      var lines := SplitLines(s);
      var rest := SplitLines(s[n..]);
      SplitLinesEnd(s[n..]);
      forall i | 0 <= i < |lines| - 1 ensures LastIsBreak(lines[i]) {
        if i == 0 {
          assert lines[0] == s[..n] && n < |s|;
        } else {
          assert lines[i] == rest[i - 1];
        }
      }
    }
  }

  lemma {:induction false} SplitLinesInner(s: string)
    ensures forall i :: 0 <= i < |SplitLines(s)| ==> BreaksAtEnd(SplitLines(s)[i])
    decreases |s|
  {
    if s != "" {
      var n := FirstLineLength(s);
      var lines := SplitLines(s);
      var rest := SplitLines(s[n..]);
      SplitLinesInner(s[n..]);
      forall i | 0 <= i < |lines| ensures BreaksAtEnd(lines[i]) {
        if i == 0 {
          var line := s[..n];
          assert lines[0] == line;
          forall j | 0 <= j < |line| - 1 && IsBreak(line[j])
            ensures j == |line| - 2 && line[j] == '\r' && line[j + 1] == '\n'
          {
            assert line[j] == s[j] && line[j + 1] == s[j + 1];
          }
        } else {
          assert lines[i] == rest[i - 1];
        }
      }
    }
  }

  lemma {:induction false} SplitLinesPairs(s: string)
    ensures forall i :: 0 <= i < |SplitLines(s)| - 1 ==> !CrThenLf(SplitLines(s)[i], SplitLines(s)[i + 1])
    decreases |s|
  {
    if s != "" {
      var n := FirstLineLength(s);
      var lines := SplitLines(s);
      var rest := SplitLines(s[n..]);
      SplitLinesPairs(s[n..]);
      forall i | 0 <= i < |lines| - 1 ensures !CrThenLf(lines[i], lines[i + 1]) {
        if i == 0 {
          assert lines[0] == s[..n] && n < |s|;
          FirstLineStart(s[n..]);
          assert lines[1] == rest[0];
        } else {
          assert lines[i] == rest[i - 1] && lines[i + 1] == rest[i];
        }
      }
    }
  }

  predicate LastIsBreak(line: string)
  {
    line != "" && IsBreak(line[|line| - 1])
  }

  /** The only terminators in a line are at its end: one character, or `\r\n`. */
  predicate BreaksAtEnd(line: string)
  {
    forall j :: 0 <= j < |line| - 1 && IsBreak(line[j]) ==> j == |line| - 2 && line[j] == '\r' && line[j + 1] == '\n'
  }

  predicate CrThenLf(line: string, next: string)
  {
    line != "" && next != "" && line[|line| - 1] == '\r' && next[0] == '\n'
  }

  lemma FirstLineStart(s: string)
    requires s != ""
    ensures SplitLines(s)[0][0] == s[0]
  {
  }

  /** A text without line boundaries is a single line. */
  lemma SplitLinesSingle(s: string)
    requires s != "" && NoBreak(s)
    ensures SplitLines(s) == [s]
  {
    var n := FirstLineLength(s);
    assert !IsBreak(s[n - 1]);
    assert s[..n] == s && s[n..] == "";
  }

  /** `s.rstrip(c)`: `s` with every trailing `c` removed. */
  function RStrip(s: string, c: char): (r: string)
    ensures r <= s
    ensures r != "" ==> r[|r| - 1] != c
    ensures forall i :: |r| <= i < |s| ==> s[i] == c
  {
    if s != "" && s[|s| - 1] == c then RStrip(s[..|s| - 1], c) else s
  }
}

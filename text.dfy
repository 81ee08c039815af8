/**
 * String helpers the drivers and the editor rely on: Python's
 * `str.splitlines` (used by the graphic parser of the driver and by the
 * editor's file reader) and ASCII upper-casing (used by the schedule
 * dialog).
 */
module Text {

  /** The characters `str.splitlines` treats as line boundaries. */
  predicate IsBreak(c: char)
  {
    c == '\n' || c == '\r' || c == '\U{000B}' || c == '\U{000C}'
    || c == '\U{001C}' || c == '\U{001D}' || c == '\U{001E}'
    || c == '\U{0085}' || c == '\U{2028}' || c == '\U{2029}'
  }

  /** No character of `s` is a line boundary. */
  predicate NoBreaks(s: string)
  {
    forall i :: 0 <= i < |s| ==> !IsBreak(s[i])
  }

  /** Index of the first line boundary in `s`, or `|s|` when there is none. */
  function LineEnd(s: string): (e: nat)
    ensures e <= |s|
    ensures e < |s| ==> IsBreak(s[e])
    ensures NoBreaks(s[..e])
    decreases |s|
  {
    if s == [] || IsBreak(s[0]) then 0
    else
      var e := 1 + LineEnd(s[1..]);
      assert s[..e] == [s[0]] + s[1..][..e - 1];
      e
  }

  /** Position after the boundary that ends the first line (`\r\n` is one boundary). */
  function NextLine(s: string): (n: nat)
    ensures LineEnd(s) <= n <= |s|
    ensures LineEnd(s) < |s| ==> LineEnd(s) < n
  {
    var e := LineEnd(s);
    if e == |s| then e
    else if s[e] == '\r' && e + 1 < |s| && s[e + 1] == '\n' then e + 2
    else e + 1
  }

  /** `str.splitlines()`: the lines of `s` without their boundaries; no
      empty last line after a final boundary, and no line at all for "". */
  function SplitLines(s: string): (r: seq<string>)
    ensures forall k :: 0 <= k < |r| ==> NoBreaks(r[k])
    ensures s == [] <==> r == []
    decreases |s|
  {
    if s == [] then []
    else
      var rest := SplitLines(s[NextLine(s)..]);
      [s[..LineEnd(s)]] + rest
  }

  /** Every line followed by `\r\n`, as the editor writes a grid. */
  function JoinCrLf(lines: seq<string>): (s: string)
    decreases |lines|
  {
    if lines == [] then [] else lines[0] + "\r\n" + JoinCrLf(lines[1..])
  }

  /** Writing one more line appends it and its `\r\n`. */
  lemma {:induction false} JoinSnoc(lines: seq<string>, line: string)
    ensures JoinCrLf(lines + [line]) == JoinCrLf(lines) + line + "\r\n"
    decreases |lines|
  {
    if lines != [] {
      assert (lines + [line])[1..] == lines[1..] + [line];
      JoinSnoc(lines[1..], line);
    } else {
      assert JoinCrLf([line]) == line + "\r\n" + JoinCrLf([]);
    }
  }

  /** A line without boundaries starts with a character that is not one, and so does its tail. */
  lemma NoBreaksTail(line: string)
    requires NoBreaks(line) && line != []
    ensures !IsBreak(line[0]) && NoBreaks(line[1..])
  {
    forall i | 0 <= i < |line| - 1
      ensures !IsBreak(line[1..][i])
    {
      assert line[1..][i] == line[i + 1];
    }
  }

  /** The first line of `line + rest` is `line`, when `rest` starts with a boundary. */
  lemma {:induction false} LineEndOfLine(line: string, rest: string)
    requires NoBreaks(line)
    requires rest != [] && IsBreak(rest[0])
    ensures LineEnd(line + rest) == |line|
    decreases |line|
  {
    var s := line + rest;
    if line == [] {
      assert s == rest;
    } else {
      NoBreaksTail(line);
      assert s[0] == line[0];
      assert s[1..] == line[1..] + rest;
      LineEndOfLine(line[1..], rest);
      assert LineEnd(s) == 1 + LineEnd(s[1..]);
    }
  }

  /** Splitting what `JoinCrLf` wrote gives the lines back. */
  lemma {:induction false} SplitJoin(lines: seq<string>)
    requires forall k :: 0 <= k < |lines| ==> NoBreaks(lines[k])
    ensures SplitLines(JoinCrLf(lines)) == lines
    decreases |lines|
  {
    if lines != [] {
      var s := JoinCrLf(lines);
      var tail := JoinCrLf(lines[1..]);
      assert s == lines[0] + ("\r\n" + tail);
      LineEndOfLine(lines[0], "\r\n" + tail);
      assert s[..|lines[0]|] == lines[0];
      assert s[|lines[0]|] == '\r' && s[|lines[0]| + 1] == '\n';
      assert NextLine(s) == |lines[0]| + 2;
      assert s[NextLine(s)..] == tail;
      SplitJoin(lines[1..]);
    }
  }

  /** `str.upper()` on ASCII letters; every other character is kept. */
  function UpperChar(c: char): (u: char)
    ensures 'a' <= c <= 'z' ==> 'A' <= u <= 'Z' && u as int == c as int - 32
    ensures !('a' <= c <= 'z') ==> u == c
  {
    if 'a' <= c <= 'z' then (c as int - 32) as char else c
  }

  function Upper(s: string): (u: string)
    ensures |u| == |s|
    ensures forall i :: 0 <= i < |s| ==> u[i] == UpperChar(s[i])
    decreases |s|
  {
    if s == [] then [] else [UpperChar(s[0])] + Upper(s[1..])
  }

  /** Upper-casing twice is upper-casing once. */
  lemma UpperIdempotent(s: string)
    ensures Upper(Upper(s)) == Upper(s)
  {
    assert forall i :: 0 <= i < |s| ==> UpperChar(UpperChar(s[i])) == UpperChar(s[i]);
  }
}

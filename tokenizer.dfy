/**
 * Splitting a line into fields the way `while (getline(stream, cell, d))`
 * does, and splitting a file into lines the same way with `d == '\n'`.
 */
module Tokenizer {

  predicate Free(s: string, d: char)
  {
    forall i :: 0 <= i < |s| ==> s[i] != d
  }

  /** Index of the first `d` in `s`, or `|s|` when there is none. */
  function FindFirst(s: string, d: char): (k: nat)
    ensures k <= |s|
    ensures k < |s| ==> s[k] == d
    ensures Free(s[..k], d)
  {
    FindFrom(s, d, 0)
  }

  /** Index of the first `d` at or after `i`, or `|s|` when there is none. */
  function FindFrom(s: string, d: char, i: nat): (k: nat)
    requires i <= |s|
    ensures i <= k <= |s|
    ensures k < |s| ==> s[k] == d
    ensures forall j :: i <= j < k ==> s[j] != d
    decreases |s| - i
  {
    if i == |s| || s[i] == d then i else FindFrom(s, d, i + 1)
  }

  /** The plain split of `s` at every `d`; it always has at least one piece. */
  function Split(s: string, d: char): (pieces: seq<string>)
    ensures |pieces| >= 1
    decreases |s|
  {
    var k := FindFirst(s, d);
    if k == |s| then [s] else [s[..k]] + Split(s[k + 1..], d)
  }

  /**
   * The cells the getline loop collects: every piece of the plain split,
   * except that a last piece that is empty is not produced (getline fails at
   * end of input when it extracts nothing).
   */
  function Fields(s: string, d: char): seq<string>
  {
    var p := Split(s, d);
    if p[|p| - 1] == "" then p[..|p| - 1] else p
  }

  /** `pieces` with one `d` between neighbours. */
  function Join(pieces: seq<string>, d: char): string
    requires |pieces| >= 1
  {
    if |pieces| == 1 then pieces[0] else pieces[0] + [d] + Join(pieces[1..], d)
  }

  /** `lines`, each followed by `d`: the text a writer emitting `line << d` produces. */
  function Terminated(lines: seq<string>, d: char): string
  {
    if lines == [] then "" else lines[0] + [d] + Terminated(lines[1..], d)
  }

  lemma FindFirstAt(p: string, d: char, rest: string)
    requires Free(p, d)
    ensures FindFirst(p + [d] + rest, d) == |p|
  {
    var s := p + [d] + rest;
    assert s[|p|] == d;
  }

  /** Splitting after a delimiter-free prefix and a delimiter peels that prefix off. */
  lemma SplitCons(p: string, d: char, rest: string)
    requires Free(p, d)
    ensures Split(p + [d] + rest, d) == [p] + Split(rest, d)
  {
    var s := p + [d] + rest;
    FindFirstAt(p, d, rest);
    assert s[..|p|] == p;
    assert s[|p| + 1..] == rest;
  }

  lemma SplitFree(p: string, d: char)
    requires Free(p, d)
    ensures Split(p, d) == [p]
  {
  }

  /** Joining the pieces of a split gives back the line. */
  lemma {:induction false} JoinSplit(s: string, d: char)
    ensures Join(Split(s, d), d) == s
    decreases |s|
  {
    var k := FindFirst(s, d);
    if k < |s| {
      JoinSplit(s[k + 1..], d);
      assert s == s[..k] + [d] + s[k + 1..];
    }
  }

  /** Splitting a join of delimiter-free pieces gives back the pieces. */
  lemma {:induction false} SplitJoin(pieces: seq<string>, d: char)
    requires |pieces| >= 1
    requires forall j :: 0 <= j < |pieces| ==> Free(pieces[j], d)
    ensures Split(Join(pieces, d), d) == pieces
  {
    if |pieces| == 1 {
      SplitFree(pieces[0], d);
    } else {
      SplitJoin(pieces[1..], d);
      SplitCons(pieces[0], d, Join(pieces[1..], d));
    }
  }

  lemma {:induction false} TerminatedIsJoin(lines: seq<string>, d: char)
    ensures Terminated(lines, d) == Join(lines + [""], d)
  {
    if lines != [] {
      TerminatedIsJoin(lines[1..], d);
      assert (lines + [""])[1..] == lines[1..] + [""];
    }
  }

  /**
   * Reading back, line by line, a text written as terminated lines gives the
   * same lines, provided no line contains the terminator.
   */
  lemma ReadTerminated(lines: seq<string>, d: char)
    requires forall j :: 0 <= j < |lines| ==> Free(lines[j], d)
    ensures Fields(Terminated(lines, d), d) == lines
  {
    TerminatedIsJoin(lines, d);
    SplitJoin(lines + [""], d);
    assert (lines + [""])[..|lines|] == lines;
  }

  /** Appending a piece to a join appends a delimiter and the piece. */
  lemma {:induction false} JoinSnoc(pieces: seq<string>, p: string, d: char)
    requires |pieces| >= 1
    ensures Join(pieces + [p], d) == Join(pieces, d) + [d] + p
  {
    if |pieces| > 1 {
      JoinSnoc(pieces[1..], p, d);
      assert (pieces + [p])[1..] == pieces[1..] + [p];
    }
  }

  /** Extending the last piece of a join extends the join. */
  lemma {:induction false} JoinExtendLast(pieces: seq<string>, p: string, c: char, d: char)
    ensures Join(pieces + [p + [c]], d) == Join(pieces + [p], d) + [c]
  {
    if pieces != [] {
      JoinExtendLast(pieces[1..], p, c, d);
      assert (pieces + [p])[1..] == pieces[1..] + [p];
      assert (pieces + [p + [c]])[1..] == pieces[1..] + [p + [c]];
    }
  }

  /** The getline loop itself, one character at a time. */
  method GetlineFields(line: string, d: char) returns (row: seq<string>)
    ensures row == Fields(line, d)
  {
    row := [];
    var cell := "";
    var i := 0;
    while i < |line|
      invariant 0 <= i <= |line|
      invariant Free(cell, d)
      invariant forall j :: 0 <= j < |row| ==> Free(row[j], d)
      invariant Join(row + [cell], d) == line[..i]
    {
      if line[i] == d {
        JoinSnoc(row + [cell], "", d);
        row := row + [cell];
        cell := "";
      } else {
        JoinExtendLast(row, cell, line[i], d);
        cell := cell + [line[i]];
      }
      assert line[..i + 1] == line[..i] + [line[i]];
      i := i + 1;
    }
    assert line[..i] == line;
    SplitJoin(row + [cell], d);
    if cell != "" {
      row := row + [cell];
    } else {
      assert (row + [cell])[..|row|] == row;
    }
  }
}

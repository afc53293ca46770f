/** Splitting a byte stream at line feeds, whatever the sizes of the reads. */
module LineSplit {
  import opened Utf8

  const LF: Byte := 0x0a

  /** Index of the first line feed, or the length. */
  function FirstLf(b: seq<Byte>): (i: nat)
    ensures i <= |b|
    ensures forall k :: 0 <= k < i ==> b[k] != LF
    ensures i < |b| ==> b[i] == LF
  {
    if b == [] || b[0] == LF then 0 else 1 + FirstLf(b[1..])
  }

  /** The lines that are complete, and the bytes after the last line feed. */
  datatype Split = Split(lines: seq<seq<Byte>>, rest: seq<Byte>)

  function SplitLines(b: seq<Byte>): Split
    decreases |b|
  {
    var i := FirstLf(b);
    if i == |b| then Split([], b)
    else
      var t := SplitLines(b[i + 1..]);
      Split([b[..i]] + t.lines, t.rest)
  }

  predicate OneLine(b: seq<Byte>) { forall k :: 0 <= k < |b| ==> b[k] != LF }

  function Joined(lines: seq<seq<Byte>>, rest: seq<Byte>): (b: seq<Byte>)
    ensures |rest| <= |b|
  {
    if lines == [] then rest else lines[0] + [LF] + Joined(lines[1..], rest)
  }

  lemma FirstLfOf(line: seq<Byte>, tail: seq<Byte>)
    requires OneLine(line)
    ensures FirstLf(line + [LF] + tail) == |line|
  {
    var b := line + [LF] + tail;
    assert b[|line|] == LF;
    assert forall k :: 0 <= k < |line| ==> b[k] == line[k];
  }

  /** The split is the one decomposition of the bytes into lines without line feeds. */
  lemma {:induction false} SplitIsUnique(b: seq<Byte>, lines: seq<seq<Byte>>, rest: seq<Byte>)
    ensures SplitLines(b) == Split(lines, rest) <==>
      b == Joined(lines, rest) && OneLine(rest) && forall k :: 0 <= k < |lines| ==> OneLine(lines[k])
    decreases |b|
  {
    SplitJoins(b);
    if b == Joined(lines, rest) && OneLine(rest) && forall k :: 0 <= k < |lines| ==> OneLine(lines[k]) {
      JoinSplits(lines, rest);
    }
  }

  lemma {:induction false} SplitJoins(b: seq<Byte>)
    ensures var s := SplitLines(b);
      b == Joined(s.lines, s.rest) && OneLine(s.rest) && forall k :: 0 <= k < |s.lines| ==> OneLine(s.lines[k])
    decreases |b|
  {
    hide SplitLines, Joined;
    var i := FirstLf(b);
    SplitStep(b);
    if i < |b| {
      var t := SplitLines(b[i + 1..]);
      SplitJoins(b[i + 1..]);
      JoinedStep(b[..i], t.lines, t.rest);
      assert b == b[..i] + [LF] + b[i + 1..];
    } else {
      JoinedNothing(b);
    }
  }

  lemma SplitStep(b: seq<Byte>)
    ensures FirstLf(b) == |b| ==> SplitLines(b) == Split([], b)
    ensures FirstLf(b) < |b| ==>
      var i := FirstLf(b); var t := SplitLines(b[i + 1..]);
      SplitLines(b) == Split([b[..i]] + t.lines, t.rest)
  {
    hide FirstLf;
  }

  lemma JoinedStep(line: seq<Byte>, lines: seq<seq<Byte>>, rest: seq<Byte>)
    ensures Joined([line] + lines, rest) == line + [LF] + Joined(lines, rest)
  {
    assert ([line] + lines)[1..] == lines;
  }

  lemma JoinedNothing(rest: seq<Byte>)
    ensures Joined([], rest) == rest
  {
  }

  lemma {:induction false} JoinSplits(lines: seq<seq<Byte>>, rest: seq<Byte>)
    requires OneLine(rest) && forall k :: 0 <= k < |lines| ==> OneLine(lines[k])
    ensures SplitLines(Joined(lines, rest)) == Split(lines, rest)
    decreases |lines|
  {
    var b := Joined(lines, rest);
    if lines == [] {
      assert b == rest && FirstLf(b) == |b|;
    } else {
      var tail := Joined(lines[1..], rest);
      JoinSplits(lines[1..], rest);
      FirstLfOf(lines[0], tail);
      assert b == lines[0] + [LF] + tail;
      assert b[..|lines[0]|] == lines[0] && b[|lines[0]| + 1..] == tail;
      assert [lines[0]] + lines[1..] == lines;
    }
  }

  lemma {:induction false} JoinedExtends(lines: seq<seq<Byte>>, rest: seq<Byte>, b: seq<Byte>)
    ensures Joined(lines, rest) + b == Joined(lines, rest + b)
    decreases |lines|
  {
    if lines != [] {
      JoinedExtends(lines[1..], rest, b);
      var head := lines[0] + [LF];
      assert (head + Joined(lines[1..], rest)) + b == head + (Joined(lines[1..], rest) + b);
    }
  }

  lemma {:induction false} JoinedTwice(a: seq<seq<Byte>>, b: seq<seq<Byte>>, rest: seq<Byte>)
    ensures Joined(a, Joined(b, rest)) == Joined(a + b, rest)
    decreases |a|
  {
    if a == [] {
      assert a + b == b;
    } else {
      JoinedTwice(a[1..], b, rest);
      assert (a + b)[0] == a[0] && (a + b)[1..] == a[1..] + b;
    }
  }

  /** Splitting may be resumed from the incomplete line. */
  lemma SplitConcat(a: seq<Byte>, b: seq<Byte>)
    ensures var s := SplitLines(a); var t := SplitLines(s.rest + b);
      SplitLines(a + b) == Split(s.lines + t.lines, t.rest)
  {
    hide SplitLines, Joined;
    var s := SplitLines(a);
    var t := SplitLines(s.rest + b);
    SplitJoins(a);
    SplitJoins(s.rest + b);
    JoinedExtends(s.lines, s.rest, b);
    JoinedTwice(s.lines, t.lines, t.rest);
    JoinSplits(s.lines + t.lines, t.rest);
  }

  /** All lines of a file, an unterminated last one included. */
  function AllLines(b: seq<Byte>): seq<seq<Byte>> {
    var s := SplitLines(b);
    s.lines + if s.rest == [] then [] else [s.rest]
  }

  function Concat(chunks: seq<seq<Byte>>): seq<Byte> {
    if chunks == [] then [] else chunks[0] + Concat(chunks[1..])
  }

  lemma {:induction false} ConcatLast(chunks: seq<seq<Byte>>, i: nat)
    requires i < |chunks|
    ensures Concat(chunks[..i + 1]) == Concat(chunks[..i]) + chunks[i]
    decreases i
  {
    if i == 0 {
      assert chunks[..1] == [chunks[0]] && chunks[..0] == [];
      assert chunks[..1][1..] == [];
    } else {
      ConcatLast(chunks[1..], i - 1);
      assert chunks[..i + 1][1..] == chunks[1..][..i] && chunks[..i][1..] == chunks[1..][..i - 1];
    }
  }

  lemma {:induction false} ConcatAppend(a: seq<seq<Byte>>, b: seq<seq<Byte>>)
    ensures Concat(a + b) == Concat(a) + Concat(b)
    decreases |a|
  {
    if a == [] { assert a + b == b; }
    else {
      ConcatAppend(a[1..], b);
      assert (a + b)[1..] == a[1..] + b && (a + b)[0] == a[0];
    }
  }

  /** A line that is under way shows in every continuation: it starts the next line. */
  lemma RestStartsNextLine(a: seq<Byte>, b: seq<Byte>)
    requires SplitLines(a).rest != []
    ensures var n := |SplitLines(a).lines|; var all := AllLines(a + b);
      && n < |all| && all[..n] == SplitLines(a).lines
      && |SplitLines(a).rest| <= |all[n]| && all[n][..|SplitLines(a).rest|] == SplitLines(a).rest
  {
    var s := SplitLines(a);
    SplitConcat(a, b);
    SplitJoins(a);
    var r := s.rest + b;
    assert forall k :: 0 <= k < |s.rest| ==> r[k] == s.rest[k];
    var i := FirstLf(r);
    var t := SplitLines(r);
    if i < |r| { assert t.lines[0] == r[..i]; } else { assert t.rest == r; }
  }
}

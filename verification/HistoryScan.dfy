/** The line scan of a native session file: offsets and lengths of its lines, for any sizes of the reads. */
module HistoryScan {
  import opened Prelude
  import opened Utf8
  import opened LineSplit

  datatype Line = Line(offset: nat, content: seq<Byte>)

  /** Lines laid out from `offset` on, one line feed after each. */
  function Located(offset: nat, lines: seq<seq<Byte>>): seq<Line>
    decreases |lines|
  {
    if lines == [] then [] else [Line(offset, lines[0])] + Located(offset + |lines[0]| + 1, lines[1..])
  }

  predicate Fits(lines: seq<seq<Byte>>, maxLine: nat) { forall k :: 0 <= k < |lines| ==> |lines[k]| <= maxLine }

  lemma LocatedSteps(offset: nat, lines: seq<seq<Byte>>, rest: seq<Byte>)
    ensures lines == [] ==> Located(offset, lines) == [] && Joined(lines, rest) == rest
    ensures lines != [] ==>
      && Located(offset, lines) == [Line(offset, lines[0])] + Located(offset + |lines[0]| + 1, lines[1..])
      && |Joined(lines, rest)| == |lines[0]| + 1 + |Joined(lines[1..], rest)|
  {
  }

  lemma {:induction false} LocatedLast(offset: nat, lines: seq<seq<Byte>>, rest: seq<Byte>, last: seq<Byte>)
    ensures Located(offset, lines + [last]) ==
      Located(offset, lines) + [Line(offset + |Joined(lines, rest)| - |rest|, last)]
    decreases |lines|
  {
    hide Located, Joined;
    LocatedSteps(offset, lines, rest);
    LocatedSteps(offset, lines + [last], rest);
    if lines == [] {
      assert lines + [last] == [last];
      var none: seq<seq<Byte>> := [last][1..];
      assert none == [];
      LocatedSteps(offset + |last| + 1, none, rest);
    } else {
      LocatedLast(offset + |lines[0]| + 1, lines[1..], rest, last);
      assert (lines + [last])[0] == lines[0] && (lines + [last])[1..] == lines[1..] + [last];
    }
  }

  /** Every recorded line is where its offset says, with its own length. */
  lemma {:induction false} LocatedReadsBack(offset: nat, lines: seq<seq<Byte>>, rest: seq<Byte>, before: seq<Byte>,
      k: nat)
    requires |before| == offset && k < |lines|
    ensures |Located(offset, lines)| == |lines|
    ensures var l := Located(offset, lines)[k]; var file := before + Joined(lines, rest);
      && l.content == lines[k] && l.offset + |l.content| <= |file|
      && file[l.offset..l.offset + |l.content|] == l.content
    decreases |lines|
  {
    var file := before + Joined(lines, rest);
    if k > 0 {
      LocatedReadsBack(offset + |lines[0]| + 1, lines[1..], rest, before + lines[0] + [LF], k - 1);
      assert file == before + lines[0] + [LF] + Joined(lines[1..], rest);
    } else {
      assert file[offset..offset + |lines[0]|] == lines[0];
      if |lines| > 1 { LocatedReadsBack(offset + |lines[0]| + 1, lines[1..], rest, before + lines[0] + [LF], 0); }
    }
  }

  lemma {:induction false} LocatedLength(offset: nat, lines: seq<seq<Byte>>)
    ensures |Located(offset, lines)| == |lines|
    decreases |lines|
  {
    if lines != [] { LocatedLength(offset + |lines[0]| + 1, lines[1..]); }
  }

  /** Reading a recorded range of the file gives back the line. */
  lemma RecordedRangeIsLine(file: seq<Byte>, k: nat)
    requires k < |AllLines(file)|
    ensures |Located(0, AllLines(file))| == |AllLines(file)|
    ensures var l := Located(0, AllLines(file))[k];
      l.offset + |l.content| <= |file| && file[l.offset..l.offset + |l.content|] == AllLines(file)[k] == l.content
  {
    hide SplitLines, Joined, Located;
    var s := SplitLines(file);
    var none: seq<Byte> := [];
    SplitJoins(file);
    assert none + file == file;
    assert s.lines + [] == s.lines;
    LocatedLength(0, s.lines);
    if s.rest != [] { LocatedLast(0, s.lines, s.rest, s.rest); }
    if k < |s.lines| {
      LocatedReadsBack(0, s.lines, s.rest, none, k);
    } else {
      JoinedEnds(s.lines, s.rest);
    }
  }

  lemma {:induction false} JoinedEnds(lines: seq<seq<Byte>>, rest: seq<Byte>)
    ensures var b := Joined(lines, rest); |rest| <= |b| && b[|b| - |rest|..] == rest
    decreases |lines|
  {
    if lines != [] { JoinedEnds(lines[1..], rest); }
  }

  /** Lines seen so far and the one under way, after the bytes `seen`. */
  ghost predicate Scanned(seen: seq<Byte>, lines: seq<Line>, lineStart: nat, line: seq<Byte>) {
    var s := SplitLines(seen);
    lines == Located(0, s.lines) && line == s.rest && lineStart + |line| == |seen|
  }

  lemma ScannedPart(seen: seq<Byte>, lines: seq<Line>, lineStart: nat, line: seq<Byte>, part: seq<Byte>)
    requires Scanned(seen, lines, lineStart, line) && OneLine(part)
    ensures Scanned(seen + part, lines, lineStart, line + part)
  {
    hide SplitLines, Joined;
    var s := SplitLines(seen);
    SplitJoins(seen);
    JoinedExtends(s.lines, s.rest, part);
    JoinSplits(s.lines, s.rest + part);
  }

  lemma ScannedNewline(seen: seq<Byte>, lines: seq<Line>, lineStart: nat, line: seq<Byte>)
    requires Scanned(seen, lines, lineStart, line)
    ensures Scanned(seen + [LF], lines + [Line(lineStart, line)], |seen| + 1, [])
  {
    hide SplitLines;
    var s := SplitLines(seen);
    SplitJoins(seen);
    JoinedExtends(s.lines, s.rest, [LF]);
    assert Joined([s.rest], []) == s.rest + [LF] + [] by { assert [s.rest][1..] == []; }
    assert s.rest + [LF] + [] == s.rest + [LF];
    JoinedTwice(s.lines, [s.rest], []);
    JoinSplits(s.lines + [s.rest], []);
    LocatedLast(0, s.lines, s.rest, s.rest);
  }

  method IndexOf(chunk: seq<Byte>, from: nat) returns (newline: int)
    requires from <= |chunk|
    ensures newline == -1 || from <= newline < |chunk|
    ensures newline >= 0 ==> chunk[newline] == LF && OneLine(chunk[from..newline])
    ensures newline < 0 ==> OneLine(chunk[from..])
  {
    newline := from;
    while newline < |chunk|
      invariant from <= newline <= |chunk|
      invariant forall k :: from <= k < newline ==> chunk[k] != LF
    {
      if chunk[newline] == LF {
        return;
      }
      newline := newline + 1;
    }
    newline := -1;
  }

  /** The scan over one read. It stops when the line under way gets longer than `maxLine`. */
  method ScanChunk(ghost seen: seq<Byte>, readOffset: nat, chunk: seq<Byte>, lines0: seq<Line>, lineStart0: nat,
      line0: seq<Byte>, maxLine: nat)
    returns (lines: seq<Line>, lineStart: nat, line: seq<Byte>, oversized: bool, ghost upTo: nat)
    requires readOffset == |seen| && Scanned(seen, lines0, lineStart0, line0)
    requires Fits(SplitLines(seen).lines, maxLine) && |line0| <= maxLine
    ensures upTo <= |chunk| && Scanned(seen + chunk[..upTo], lines, lineStart, line)
    ensures Fits(SplitLines(seen + chunk[..upTo]).lines, maxLine)
    ensures oversized <==> |line| > maxLine
    ensures !oversized ==> upTo == |chunk|
  {
    hide SplitLines, Scanned;
    lines, lineStart, line, oversized, upTo := lines0, lineStart0, line0, false, 0;
    var cursor := 0;
    assert seen + chunk[..0] == seen;
    while cursor < |chunk|
      invariant 0 <= cursor == upTo <= |chunk|
      invariant Scanned(seen + chunk[..cursor], lines, lineStart, line)
      invariant Fits(SplitLines(seen + chunk[..cursor]).lines, maxLine) && |line| <= maxLine
      invariant !oversized
    {
      var newline := IndexOf(chunk, cursor);
      var end := if newline < 0 then |chunk| else newline;
      var part := chunk[cursor..end];
      ghost var before := seen + chunk[..cursor];
      assert seen + chunk[..end] == before + part;
      assert newline < 0 ==> part == chunk[cursor..];
      ScannedPart(before, lines, lineStart, line, part);
      assert SplitLines(before + part).lines == SplitLines(before).lines by { PartKeepsLines(before, part); }
      line := line + part;
      upTo := end;
      if |line| > maxLine {
        oversized := true;
        return;
      }
      if newline < 0 {
        cursor := |chunk|;
        break;
      }
      ScannedNewline(before + part, lines, lineStart, line);
      ScannedLine(before + part, lines, lineStart, line);
      NewlineAddsLine(before + part);
      assert chunk[..end] + [LF] == chunk[..end + 1];
      assert seen + chunk[..end + 1] == before + part + [LF];
      lines := lines + [Line(lineStart, line)];
      lineStart := readOffset + newline + 1;
      line := [];
      cursor := newline + 1;
      upTo := cursor;
    }
  }

  lemma PartKeepsLines(seen: seq<Byte>, part: seq<Byte>)
    requires OneLine(part)
    ensures SplitLines(seen + part).lines == SplitLines(seen).lines
  {
    hide SplitLines, Joined;
    SplitJoins(seen);
    JoinedExtends(SplitLines(seen).lines, SplitLines(seen).rest, part);
    JoinSplits(SplitLines(seen).lines, SplitLines(seen).rest + part);
  }

  lemma NewlineAddsLine(seen: seq<Byte>)
    ensures SplitLines(seen + [LF]).lines == SplitLines(seen).lines + [SplitLines(seen).rest]
  {
    hide SplitLines;
    var s := SplitLines(seen);
    SplitConcat(seen, [LF]);
    SplitJoins(seen);
    var r := s.rest + [LF];
    assert r == Joined([s.rest], []) by { assert [s.rest][1..] == [] && s.rest + [LF] + [] == r; }
    JoinSplits([s.rest], []);
  }

  /** The first line that is too long, or the number of lines. */
  function FirstOversized(lines: seq<seq<Byte>>, maxLine: nat): (k: nat)
    ensures k <= |lines| && Fits(lines[..k], maxLine) && (k < |lines| ==> |lines[k]| > maxLine)
  {
    if lines == [] || |lines[0]| > maxLine then 0 else 1 + FirstOversized(lines[1..], maxLine)
  }

  lemma {:induction false} FirstOversizedIs(lines: seq<seq<Byte>>, maxLine: nat, k: nat)
    requires k <= |lines| && Fits(lines[..k], maxLine) && (k < |lines| ==> |lines[k]| > maxLine)
    ensures FirstOversized(lines, maxLine) == k
  {
    if k > 0 {
      assert lines[..k][0] == lines[0] && lines[..k][1..] == lines[1..][..k - 1];
      FirstOversizedIs(lines[1..], maxLine, k - 1);
    }
  }

  /** The whole scan: whatever the reads, the lines handed on are exactly the file's lines with their offsets,
      up to the first one that is too long. */
  method ScanLines(chunks: seq<seq<Byte>>, maxLine: nat) returns (lines: seq<Line>, oversized: bool)
    ensures var all := AllLines(Concat(chunks)); var k := FirstOversized(all, maxLine);
      lines == Located(0, all[..k]) && (oversized <==> k < |all|)
  {
    hide SplitLines, Scanned, AllLines, FirstOversized;
    lines, oversized := [], false;
    ScannedStart();
    var lineStart, readOffset, line := 0, 0, [];
    ghost var file := Concat(chunks);
    for i := 0 to |chunks|
      invariant !oversized && readOffset == |Concat(chunks[..i])|
      invariant Scanned(Concat(chunks[..i]), lines, lineStart, line)
      invariant Fits(SplitLines(Concat(chunks[..i])).lines, maxLine) && |line| <= maxLine
    {
      ghost var seen := Concat(chunks[..i]);
      ghost var upTo: nat;
      lines, lineStart, line, oversized, upTo :=
        ScanChunk(seen, readOffset, chunks[i], lines, lineStart, line, maxLine);
      ConcatLast(chunks, i);
      if oversized {
        assert chunks == chunks[..i + 1] + chunks[i + 1..];
        ConcatAppend(chunks[..i + 1], chunks[i + 1..]);
        assert file == (seen + chunks[i][..upTo]) + (chunks[i][upTo..] + Concat(chunks[i + 1..]));
        ScannedLine(seen + chunks[i][..upTo], lines, lineStart, line);
        Oversize(seen + chunks[i][..upTo], chunks[i][upTo..] + Concat(chunks[i + 1..]), maxLine);
        return;
      }
      assert chunks[i][..upTo] == chunks[i];
      readOffset := readOffset + |chunks[i]|;
    }
    assert chunks[..|chunks|] == chunks;
    ScannedEnd(file, lines, lineStart, line, maxLine);
    if |line| > 0 {
      lines := lines + [Line(lineStart, line)];
    }
  }

  lemma ScannedLine(seen: seq<Byte>, lines: seq<Line>, lineStart: nat, line: seq<Byte>)
    requires Scanned(seen, lines, lineStart, line)
    ensures line == SplitLines(seen).rest && lines == Located(0, SplitLines(seen).lines)
  {
  }

  lemma ScannedStart()
    ensures Scanned([], [], 0, []) && SplitLines([]).lines == [] && Concat([]) == []
  {
  }

  lemma ScannedEnd(file: seq<Byte>, lines: seq<Line>, lineStart: nat, line: seq<Byte>, maxLine: nat)
    requires Scanned(file, lines, lineStart, line) && Fits(SplitLines(file).lines, maxLine) && |line| <= maxLine
    ensures FirstOversized(AllLines(file), maxLine) == |AllLines(file)|
    ensures Located(0, AllLines(file)[..|AllLines(file)|]) == lines + if |line| > 0 then [Line(lineStart, line)] else []
  {
    hide SplitLines;
    var s := SplitLines(file);
    var all := AllLines(file);
    SplitJoins(file);
    LocatedLast(0, s.lines, s.rest, s.rest);
    assert s.lines + [] == s.lines;
    assert all[..|all|] == all;
    FirstOversizedIs(all, maxLine, |all|);
  }

  lemma Oversize(seen: seq<Byte>, more: seq<Byte>, maxLine: nat)
    requires Fits(SplitLines(seen).lines, maxLine) && |SplitLines(seen).rest| > maxLine
    ensures var all := AllLines(seen + more); var k := |SplitLines(seen).lines|;
      k < |all| && all[..k] == SplitLines(seen).lines && FirstOversized(all, maxLine) == k
  {
    hide SplitLines, AllLines;
    RestStartsNextLine(seen, more);
    FirstOversizedIs(AllLines(seen + more), maxLine, |SplitLines(seen).lines|);
  }
}

/** The catalog's scan of a session file, and resuming it from a cached state after an append. */
module SessionScan {
  import opened Prelude
  import opened Utf8
  import opened LineSplit

  const MAX_LINE: nat := 16 * 1024 * 1024
  const CHECKPOINT: nat := 64 * 1024
  const CR: Byte := 0x0d

  datatype Header = Header(id: string, cwd: string, timestamp: Option<string>, parentSession: Option<string>)

  /** What a parsed line offers: `JSON.parse` and the reading of its fields are a parameter of the scan. */
  datatype LineValue =
    | Malformed
    | Parsed(header: Option<Header>, body: LineBody)

  datatype LineBody =
    | SessionInfo(name: Option<string>)
    | Message(conversational: bool, fromUser: bool, activity: Option<int>, preview: string)
    | Other

  type Decoder = seq<Byte> -> LineValue

  datatype ScanState = ScanState(header: Option<Header>, lineNumber: nat, name: Option<string>, messageCount: nat,
                                 firstMessage: Option<string>, lastActivity: Option<int>)

  const START := ScanState(None, 0, None, 0, None, None)

  function Body(raw: seq<Byte>): seq<Byte> {
    if raw != [] && raw[|raw| - 1] == CR then raw[..|raw| - 1] else raw
  }

  function Apply(s: ScanState, body: LineBody): ScanState {
    match body
    case Other => s
    case SessionInfo(name) => s.(name := name)
    case Message(conversational, fromUser, activity, preview) =>
      var s1 := s.(messageCount := s.messageCount + 1);
      if !conversational then s1
      else
        var s2 := if activity.None? then s1
          else s1.(lastActivity := Some(Max(if s.lastActivity.Some? then s.lastActivity.value else 0, activity.value)));
        if s.firstMessage.None? && fromUser && preview != "" then s2.(firstMessage := Some(preview)) else s2
  }

  /** `parseNativeSessionLine`; `None` is a thrown error. */
  function ParseLine(decode: Decoder, s: ScanState, raw: seq<Byte>): Option<ScanState> {
    if |Body(raw)| > MAX_LINE then None
    else
      match decode(Body(raw))
      case Malformed => if s.lineNumber == 0 then None else Some(s.(lineNumber := s.lineNumber + 1))
      case Parsed(header, body) =>
        if s.lineNumber == 0 then
          if header.None? then None else Some(s.(header := header, lineNumber := 1))
        else Some(Apply(s.(lineNumber := s.lineNumber + 1), body))
  }

  function ParseLines(decode: Decoder, s: ScanState, lines: seq<seq<Byte>>): Option<ScanState>
    decreases |lines|
  {
    if lines == [] then Some(s)
    else
      match ParseLine(decode, s, lines[0])
      case None => None
      case Some(s') => ParseLines(decode, s', lines[1..])
  }

  datatype Scan = Scan(state: ScanState, appendSafe: bool)

  /** The scan of a whole file, or of what was appended to one: all lines, and whether the last was ended. */
  function ScanBytes(decode: Decoder, s: ScanState, bytes: seq<Byte>): Option<Scan> {
    match ParseLines(decode, s, AllLines(bytes))
    case None => None
    case Some(s') => Some(Scan(s', SplitLines(bytes).rest == []))
  }

  /** No line, its carriage return included, is longer than the limit. */
  predicate Tame(bytes: seq<Byte>) { forall k :: 0 <= k < |AllLines(bytes)| ==> |AllLines(bytes)[k]| <= MAX_LINE }

  // ---------------------------------------------------------------- what a scan finds

  /** The parsed body of a line after the header. */
  function BodyOf(decode: Decoder, line: seq<Byte>): LineBody {
    match decode(Body(line)) case Malformed => Other case Parsed(_, body) => body
  }

  predicate Counts(b: LineBody) { b.Message? }

  predicate Renames(b: LineBody) { b.SessionInfo? }

  predicate Opens(b: LineBody) { b.Message? && b.conversational && b.fromUser && b.preview != "" }

  predicate Dates(b: LineBody) { b.Message? && b.conversational && b.activity.Some? }

  function Bodies(decode: Decoder, lines: seq<seq<Byte>>): (r: seq<LineBody>)
    ensures |r| == |lines|
  {
    seq(|lines|, k requires 0 <= k < |lines| => BodyOf(decode, lines[k]))
  }

  ghost function Messages(bodies: seq<LineBody>): set<nat> { set k | 0 <= k < |bodies| && Counts(bodies[k]) }

  /** The name is that of the last session information. */
  ghost predicate NamedByLast(bodies: seq<LineBody>, name: Option<string>) {
    || (name.None? && forall k :: 0 <= k < |bodies| ==> !Renames(bodies[k]))
    || exists k :: 0 <= k < |bodies| && Renames(bodies[k]) && name == bodies[k].name
         && forall j :: k < j < |bodies| ==> !Renames(bodies[j])
  }

  /** The first message is that of the first user message in the conversation that has a text. */
  ghost predicate OpenedByFirst(bodies: seq<LineBody>, first: Option<string>) {
    || (first.None? && forall k :: 0 <= k < |bodies| ==> !Opens(bodies[k]))
    || exists k :: 0 <= k < |bodies| && Opens(bodies[k]) && first == Some(bodies[k].preview)
         && forall j :: 0 <= j < k ==> !Opens(bodies[j])
  }

  /** The last activity is the greatest time of a message in the conversation, and not before 0. */
  ghost predicate DatedByLatest(bodies: seq<LineBody>, last: Option<int>) {
    && (last.Some? <==> exists k :: 0 <= k < |bodies| && Dates(bodies[k]))
    && (last.Some? ==>
         && last.value >= 0
         && (forall k :: 0 <= k < |bodies| && Dates(bodies[k]) ==> bodies[k].activity.value <= last.value)
         && (last.value == 0 || exists k :: 0 <= k < |bodies| && Dates(bodies[k]) && bodies[k].activity == last))
  }

  ghost predicate Summarises(bodies: seq<LineBody>, s: ScanState) {
    && s.lineNumber == |bodies| + 1 && s.messageCount == |Messages(bodies)|
    && NamedByLast(bodies, s.name) && OpenedByFirst(bodies, s.firstMessage) && DatedByLatest(bodies, s.lastActivity)
  }

  /** The state holds what the lines say: the first is the header, the others are summarised. */
  ghost predicate Describes(decode: Decoder, lines: seq<seq<Byte>>, s: ScanState) {
    if lines == [] then s == START
    else
      && decode(Body(lines[0])).Parsed? && decode(Body(lines[0])).header.Some?
      && s.header == decode(Body(lines[0])).header
      && Summarises(Bodies(decode, lines[1..]), s)
  }

  lemma MessagesMore(bodies: seq<LineBody>, b: LineBody)
    ensures |Messages(bodies + [b])| == |Messages(bodies)| + if Counts(b) then 1 else 0
  {
    assert forall k :: 0 <= k < |bodies| ==> (bodies + [b])[k] == bodies[k];
    assert Messages(bodies + [b]) == if Counts(b) then Messages(bodies) + {|bodies|} else Messages(bodies);
  }

  lemma NamedMore(bodies: seq<LineBody>, name: Option<string>, b: LineBody)
    requires NamedByLast(bodies, name)
    ensures NamedByLast(bodies + [b], if Renames(b) then b.name else name)
  {
    var more := bodies + [b];
    assert more[|bodies|] == b;
    if !Renames(b) && !(forall k :: 0 <= k < |bodies| ==> !Renames(bodies[k])) {
      var k :| 0 <= k < |bodies| && Renames(bodies[k]) && name == bodies[k].name
        && forall j :: k < j < |bodies| ==> !Renames(bodies[j]);
      assert more[k] == bodies[k];
    }
  }

  lemma OpenedMore(bodies: seq<LineBody>, first: Option<string>, b: LineBody)
    requires OpenedByFirst(bodies, first)
    ensures OpenedByFirst(bodies + [b], if first.None? && Opens(b) then Some(b.preview) else first)
  {
    var more := bodies + [b];
    assert more[|bodies|] == b;
    if first.Some? {
      var k :| 0 <= k < |bodies| && Opens(bodies[k]) && first == Some(bodies[k].preview)
        && forall j :: 0 <= j < k ==> !Opens(bodies[j]);
      assert more[k] == bodies[k];
    }
  }

  lemma DatedMore(bodies: seq<LineBody>, last: Option<int>, b: LineBody)
    requires DatedByLatest(bodies, last)
    ensures DatedByLatest(bodies + [b],
      if Dates(b) then Some(Max(if last.Some? then last.value else 0, b.activity.value)) else last)
  {
    var more := bodies + [b];
    assert more[|bodies|] == b;
    assert forall k :: 0 <= k < |bodies| ==> more[k] == bodies[k];
  }

  /** One more body, applied. */
  lemma SummaryGrows(bodies: seq<LineBody>, s: ScanState, b: LineBody)
    requires Summarises(bodies, s)
    ensures Summarises(bodies + [b], Apply(s.(lineNumber := s.lineNumber + 1), b))
  {
    hide Messages, NamedByLast, OpenedByFirst, DatedByLatest;
    MessagesMore(bodies, b);
    NamedMore(bodies, s.name, b);
    OpenedMore(bodies, s.firstMessage, b);
    DatedMore(bodies, s.lastActivity, b);
  }

  lemma {:induction false} ParseDescribes(decode: Decoder, lines: seq<seq<Byte>>)
    requires ParseLines(decode, START, lines).Some?
    ensures Describes(decode, lines, ParseLines(decode, START, lines).value)
    decreases |lines|
  {
    hide Summarises, Body, Bodies;
    if |lines| == 1 {
      ParseOne(decode, START, lines[0]);
      assert lines == [lines[0]];
      NothingSummarised(decode, lines, ParseLines(decode, START, lines).value);
    } else if |lines| > 1 {
      var front, last := lines[..|lines| - 1], lines[|lines| - 1];
      assert lines == front + [last];
      ParseLinesConcat(decode, START, front, [last]);
      ParseDescribes(decode, front);
      var before := ParseLines(decode, START, front).value;
      ParseOne(decode, before, last);
      SummaryGrows(Bodies(decode, front[1..]), before, BodyOf(decode, last));
      BodiesSnoc(decode, lines);
      LaterLine(decode, before, last, front);
    }
  }

  lemma NothingSummarised(decode: Decoder, lines: seq<seq<Byte>>, s: ScanState)
    requires |lines| == 1 && s == START.(header := s.header, lineNumber := 1)
    ensures Summarises(Bodies(decode, lines[1..]), s)
  {
    assert Bodies(decode, lines[1..]) == [];
    assert Messages([]) == {};
  }

  lemma BodiesSnoc(decode: Decoder, lines: seq<seq<Byte>>)
    requires |lines| > 1
    ensures Bodies(decode, lines[1..]) ==
      Bodies(decode, lines[..|lines| - 1][1..]) + [BodyOf(decode, lines[|lines| - 1])]
  {
  }

  lemma LaterLine(decode: Decoder, s: ScanState, line: seq<Byte>, front: seq<seq<Byte>>)
    requires Describes(decode, front, s) && front != [] && ParseLine(decode, s, line).Some?
    ensures ParseLine(decode, s, line).value == Apply(s.(lineNumber := s.lineNumber + 1), BodyOf(decode, line))
    ensures ParseLine(decode, s, line).value.header == s.header
  {
    hide Body, NamedByLast, OpenedByFirst, DatedByLatest, Messages;
  }

  // ---------------------------------------------------------------- the scan as it reads

  /** One read after another: complete lines are parsed, and what is left over must not be too long. */
  function ScanReads(decode: Decoder, s: ScanState, buffered: seq<Byte>, chunks: seq<seq<Byte>>): Option<(ScanState,
      seq<Byte>)>
    decreases |chunks|
  {
    if chunks == [] then Some((s, buffered))
    else
      var split := SplitLines(buffered + chunks[0]);
      match ParseLines(decode, s, split.lines)
      case None => None
      case Some(s') => if |split.rest| > MAX_LINE then None else ScanReads(decode, s', split.rest, chunks[1..])
  }

  /** With the unterminated last line. */
  function Finish(decode: Decoder, r: Option<(ScanState, seq<Byte>)>): Option<Scan> {
    match r
    case None => None
    case Some((s, buffered)) =>
      if buffered == [] then Some(Scan(s, true))
      else if |buffered| > MAX_LINE then None
      else
        match ParseLine(decode, s, buffered)
        case None => None
        case Some(s') => Some(Scan(s', false))
  }

  /** The scan of a file that arrives in these reads. */
  function Scanned(decode: Decoder, s: ScanState, chunks: seq<seq<Byte>>): Option<Scan> {
    Finish(decode, ScanReads(decode, s, [], chunks))
  }

  /** A scan that succeeds describes the lines of the file, however they arrive. */
  lemma ScanDescribes(decode: Decoder, chunks: seq<seq<Byte>>)
    ensures var r := Scanned(decode, START, chunks);
      r.Some? ==> Describes(decode, AllLines(Concat(chunks)), r.value.state)
  {
    hide Describes, ParseLines, SplitLines;
    ReadsAreWhole(decode, START, [], chunks);
    assert [] + Concat(chunks) == Concat(chunks);
    if Scanned(decode, START, chunks).Some? { ParseDescribes(decode, AllLines(Concat(chunks))); }
  }

  method ScanAttempt(decode: Decoder, start: ScanState, chunks: seq<seq<Byte>>) returns (r: Option<Scan>)
    ensures r == Scanned(decode, start, chunks)
    ensures r.Some? && start == START ==> Describes(decode, AllLines(Concat(chunks)), r.value.state)
  {
    var state, buffered := start, [];
    ScanDescribes(decode, chunks);
    for i := 0 to |chunks|
      invariant ScanReads(decode, start, [], chunks) == ScanReads(decode, state, buffered, chunks[i..])
    {
      buffered := buffered + chunks[i];
      ghost var before, all := state, buffered;
      var newline := FirstLf(buffered);
      while newline < |buffered|
        invariant newline == FirstLf(buffered)
        invariant ParseLines(decode, before, SplitLines(all).lines) ==
          ParseLines(decode, state, SplitLines(buffered).lines)
        invariant SplitLines(all).rest == SplitLines(buffered).rest
        decreases |buffered|
      {
        var parsed := ParseLine(decode, state, buffered[..newline]);
        if parsed.None? { return None; }
        state := parsed.value;
        buffered := buffered[newline + 1..];
        newline := FirstLf(buffered);
      }
      if |buffered| > MAX_LINE { return None; }
    }
    if |buffered| == 0 { return Some(Scan(state, true)); }
    if |buffered| > MAX_LINE { return None; }
    var last := ParseLine(decode, state, buffered);
    if last.None? { return None; }
    r := Some(Scan(last.value, false));
  }

  lemma {:induction false} ParseLinesConcat(decode: Decoder, s: ScanState, a: seq<seq<Byte>>, b: seq<seq<Byte>>)
    ensures ParseLines(decode, s, a + b) ==
      match ParseLines(decode, s, a)
      case None => None
      case Some(s') => ParseLines(decode, s', b)
    decreases |a|
  {
    if a == [] {
      assert a + b == b;
    } else {
      assert (a + b)[0] == a[0] && (a + b)[1..] == a[1..] + b;
      if ParseLine(decode, s, a[0]).Some? { ParseLinesConcat(decode, ParseLine(decode, s, a[0]).value, a[1..], b); }
    }
  }

  /** What a buffered beginning and the remaining reads amount to. */
  function Rest(buffered: seq<Byte>, chunks: seq<seq<Byte>>): seq<Byte> { buffered + Concat(chunks) }

  /** However the file is cut into reads, a scan that succeeds is the scan of the whole file; it can only fail
      where that one fails, or at a line above the limit. */
  lemma {:induction false} ReadsAreWhole(decode: Decoder, s: ScanState, buffered: seq<Byte>, chunks: seq<seq<Byte>>)
    requires OneLine(buffered) && |buffered| <= MAX_LINE
    ensures var r := Finish(decode, ScanReads(decode, s, buffered, chunks)); var whole := Rest(buffered, chunks);
      r == ScanBytes(decode, s, whole) || (r == None && !Tame(whole))
    decreases |chunks|
  {
    hide SplitLines, Joined;
    var whole := Rest(buffered, chunks);
    if chunks == [] {
      assert whole == buffered;
      LoneLine(decode, s, buffered);
    } else {
      var b := buffered + chunks[0];
      var split := SplitLines(b);
      SplitJoins(b);
      assert whole == b + Concat(chunks[1..]);
      Resume(decode, s, b, Concat(chunks[1..]));
      if ParseLines(decode, s, split.lines).Some? {
        if |split.rest| > MAX_LINE {
          RestStartsNextLine(b, Concat(chunks[1..]));
        } else {
          ReadsAreWhole(decode, ParseLines(decode, s, split.lines).value, split.rest, chunks[1..]);
          TameSuffix(b, Concat(chunks[1..]));
        }
      }
    }
  }

  lemma ParseOne(decode: Decoder, s: ScanState, line: seq<Byte>)
    ensures ParseLines(decode, s, [line]) == ParseLine(decode, s, line)
  {
    var rest: seq<seq<Byte>> := [line][1..];
    assert rest == [];
  }

  lemma LoneLine(decode: Decoder, s: ScanState, line: seq<Byte>)
    requires OneLine(line) && |line| <= MAX_LINE
    ensures Finish(decode, Some((s, line))) == ScanBytes(decode, s, line)
  {
    assert line == Joined([], line);
    JoinSplits([], line);
    if line != [] {
      assert AllLines(line) == [line];
      ParseOne(decode, s, line);
    } else {
      assert AllLines(line) == [];
    }
  }

  /** The scan of a file is the parse of its complete lines, followed by the scan of the rest. */
  lemma Resume(decode: Decoder, s: ScanState, a: seq<Byte>, b: seq<Byte>)
    ensures ScanBytes(decode, s, a + b) ==
      match ParseLines(decode, s, SplitLines(a).lines)
      case None => None
      case Some(s') => ScanBytes(decode, s', SplitLines(a).rest + b)
  {
    hide SplitLines, ParseLines;
    SplitConcat(a, b);
    var t := SplitLines(SplitLines(a).rest + b);
    var last := if t.rest == [] then [] else [t.rest];
    assert AllLines(a + b) == SplitLines(a).lines + (t.lines + last);
    ParseLinesConcat(decode, s, SplitLines(a).lines, t.lines + last);
  }

  lemma TameSuffix(a: seq<Byte>, b: seq<Byte>)
    ensures !Tame(SplitLines(a).rest + b) ==> !Tame(a + b)
  {
    hide SplitLines;
    SplitConcat(a, b);
    var t := SplitLines(SplitLines(a).rest + b);
    var n := |SplitLines(a).lines|;
    var inner := AllLines(SplitLines(a).rest + b);
    assert AllLines(a + b) == SplitLines(a).lines + inner;
    if !Tame(SplitLines(a).rest + b) {
      var k :| 0 <= k < |inner| && |inner[k]| > MAX_LINE;
      assert AllLines(a + b)[n + k] == inner[k];
    }
  }

  /** What is left over after the last line feed is refused whenever it is too long. */
  lemma {:induction false} LongRestFails(decode: Decoder, s: ScanState, buffered: seq<Byte>, chunks: seq<seq<Byte>>)
    requires OneLine(buffered) && |buffered| <= MAX_LINE < |SplitLines(Rest(buffered, chunks)).rest|
    ensures Finish(decode, ScanReads(decode, s, buffered, chunks)).None?
    decreases |chunks|
  {
    hide SplitLines, Joined, ParseLines, Finish;
    if chunks == [] {
      assert Rest(buffered, chunks) == buffered == Joined([], buffered) by { JoinedNothing(buffered); }
      JoinSplits([], buffered);
    } else {
      var b := buffered + chunks[0];
      SplitJoins(b);
      assert Rest(buffered, chunks) == b + Concat(chunks[1..]);
      SplitConcat(b, Concat(chunks[1..]));
      var parsed := ParseLines(decode, s, SplitLines(b).lines);
      if parsed.Some? && |SplitLines(b).rest| <= MAX_LINE {
        LongRestFails(decode, parsed.value, SplitLines(b).rest, chunks[1..]);
      } else {
        assert ScanReads(decode, s, buffered, chunks).None?;
        FinishNothing(decode);
      }
    }
  }

  lemma FinishNothing(decode: Decoder)
    ensures Finish(decode, None).None?
  {
  }

  // ---------------------------------------------------------------- exactly when the reads do not matter

  const READ_BYTES: nat := 64 * 1024

  /** The file in reads as the stream delivers them, of up to 64 KiB. */
  predicate Reads(chunks: seq<seq<Byte>>, file: seq<Byte>) {
    Concat(chunks) == file && forall k :: 0 <= k < |chunks| ==> 0 < |chunks[k]| <= READ_BYTES
  }

  /** Every line parses, and what is left over after the last line feed is within the limit. */
  predicate Accepted(decode: Decoder, s: ScanState, file: seq<Byte>) {
    ScanBytes(decode, s, file).Some? && |SplitLines(file).rest| <= MAX_LINE
  }

  /** Line by line the file is accepted, and a complete line has a carriage return past the limit. */
  predicate AtTheLimit(decode: Decoder, s: ScanState, file: seq<Byte>) {
    && Accepted(decode, s, file)
    && exists k :: 0 <= k < |SplitLines(file).lines| && |SplitLines(file).lines[k]| == MAX_LINE + 1
         && SplitLines(file).lines[k][MAX_LINE] == CR
  }

  ghost predicate ReadsDoNotMatter(decode: Decoder, s: ScanState, file: seq<Byte>) {
    forall a, b :: Reads(a, file) && Reads(b, file) ==> Scanned(decode, s, a) == Scanned(decode, s, b)
  }

  /** However the file is read, a scan that succeeds gives the verdict on its lines; it does succeed when they
      are accepted and none is over the limit. */
  lemma ReadsVerdict(decode: Decoder, s: ScanState, chunks: seq<seq<Byte>>)
    ensures var file, scan := Concat(chunks), Scanned(decode, s, chunks);
      && (scan.Some? ==> Accepted(decode, s, file) && scan == ScanBytes(decode, s, file))
      && (Accepted(decode, s, file) && Tame(file) ==> scan == ScanBytes(decode, s, file))
  {
    hide ScanReads, ScanBytes, Tame, Finish, SplitLines;
    var file := Concat(chunks);
    assert [] + file == file;
    if |SplitLines(file).rest| > MAX_LINE { LongRestFails(decode, s, [], chunks); }
    ReadsAreWhole(decode, s, [], chunks);
  }

  lemma {:induction false} AcceptedLines(decode: Decoder, s: ScanState, lines: seq<seq<Byte>>, k: nat)
    requires k < |lines| && ParseLines(decode, s, lines).Some?
    ensures |Body(lines[k])| <= MAX_LINE
    decreases |lines|
  {
    if k > 0 { AcceptedLines(decode, ParseLine(decode, s, lines[0]).value, lines[1..], k - 1); }
  }

  /** In a file that is accepted, the only lines over the limit are at the limit. */
  lemma OnlyAtTheLimit(decode: Decoder, s: ScanState, file: seq<Byte>)
    requires Accepted(decode, s, file) && !AtTheLimit(decode, s, file)
    ensures Tame(file)
  {
    hide SplitLines, ParseLines, Body;
    var lines := SplitLines(file).lines;
    forall k | 0 <= k < |AllLines(file)| ensures |AllLines(file)[k]| <= MAX_LINE {
      AcceptedLines(decode, s, AllLines(file), k);
      BodyLength(AllLines(file)[k]);
      if k < |lines| { assert AllLines(file)[k] == lines[k]; }
    }
  }

  lemma BodyLength(raw: seq<Byte>)
    ensures |Body(raw)| == |raw| || (|Body(raw)| == |raw| - 1 && raw[|raw| - 1] == CR)
  {
  }

  /** Byte by byte; when careful, a carriage return and its line feed arrive together. */
  function Cut(file: seq<Byte>, careful: bool): (chunks: seq<seq<Byte>>)
    ensures Reads(chunks, file)
    decreases |file|
  {
    if file == [] then []
    else
      var n := if careful && |file| > 1 && file[0] == CR && file[1] == LF then 2 else 1;
      assert file == file[..n] + file[n..];
      [file[..n]] + Cut(file[n..], careful)
  }

  lemma ByteSplit(buffered: seq<Byte>, x: Byte)
    requires OneLine(buffered)
    ensures SplitLines(buffered + [x]) == if x == LF then Split([buffered], []) else Split([], buffered + [x])
  {
    hide SplitLines;
    if x == LF {
      JoinedStep(buffered, [], []);
      JoinedNothing([]);
      var none: seq<seq<Byte>> := [];
      assert [buffered] + none == [buffered] && buffered + [LF] + [] == buffered + [x];
      JoinSplits([buffered], []);
    } else {
      JoinedNothing(buffered + [x]);
      JoinSplits([], buffered + [x]);
    }
  }

  /** A buffer one byte over the limit is a whole line with its carriage return, and its line feed is next. */
  lemma FullBuffer(decode: Decoder, s: ScanState, b: seq<Byte>, tail: seq<Byte>)
    requires OneLine(b) && |b| == MAX_LINE + 1 && Accepted(decode, s, b + tail)
    ensures b[MAX_LINE] == CR && tail != [] && tail[0] == LF
  {
    hide SplitLines, ParseLines, Joined, Body;
    JoinedNothing(b);
    JoinSplits([], b);
    RestStartsNextLine(b, tail);
    var lines, rest, all := SplitLines(b + tail).lines, SplitLines(b + tail).rest, AllLines(b + tail);
    AcceptedLines(decode, s, all, 0);
    BodyLength(all[0]);
    assert all[0] == b && lines != [] && lines[0] == b;
    SplitJoins(b + tail);
    JoinedStep(lines[0], lines[1..], rest);
    assert [lines[0]] + lines[1..] == lines;
    var after := Joined(lines[1..], rest);
    assert b + [LF] + after == b + tail;
    assert (b + tail)[|b|] == LF;
  }

  /** Read with care, an accepted file is scanned to its end. */
  lemma {:induction false} CarefulSucceeds(decode: Decoder, s: ScanState, buffered: seq<Byte>, file: seq<Byte>)
    requires OneLine(buffered) && |buffered| <= MAX_LINE && Accepted(decode, s, buffered + file)
    ensures Finish(decode, ScanReads(decode, s, buffered, Cut(file, true))) == ScanBytes(decode, s, buffered + file)
    decreases |file|
  {
    hide SplitLines, ParseLines, ScanBytes, Finish, Joined;
    if file == [] {
      assert buffered + file == buffered;
      LoneLine(decode, s, buffered);
      assert ScanReads(decode, s, buffered, Cut(file, true)) == Some((s, buffered));
    } else {
      var chunks := Cut(file, true);
      var tail := file[|chunks[0]|..];
      assert chunks[1..] == Cut(tail, true);
      var b := buffered + chunks[0];
      assert b + tail == buffered + file;
      CarefulRest(decode, s, buffered, file);
      Resume(decode, s, b, tail);
      SplitConcat(b, tail);
      SplitJoins(b);
      CarefulSucceeds(decode, ParseLines(decode, s, SplitLines(b).lines).value, SplitLines(b).rest, tail);
    }
  }

  lemma CarefulRest(decode: Decoder, s: ScanState, buffered: seq<Byte>, file: seq<Byte>)
    requires OneLine(buffered) && |buffered| <= MAX_LINE && Accepted(decode, s, buffered + file) && file != []
    ensures |SplitLines(buffered + Cut(file, true)[0]).rest| <= MAX_LINE
  {
    hide SplitLines, ScanBytes, Accepted;
    var first := Cut(file, true)[0];
    if |first| == 2 {
      ByteSplit(buffered + [CR], LF);
      assert buffered + first == buffered + [CR] + [LF];
    } else {
      ByteSplit(buffered, file[0]);
      assert first == [file[0]];
      if file[0] != LF && |buffered| == MAX_LINE {
        assert buffered + [file[0]] + file[1..] == buffered + file;
        FullBuffer(decode, s, buffered + [file[0]], file[1..]);
      }
    }
  }

  predicate LongLine(file: seq<Byte>) {
    exists k :: 0 <= k < |SplitLines(file).lines| && |SplitLines(file).lines[k]| > MAX_LINE
  }

  /** Read byte by byte, a file with a complete line over the limit fails, if only for the carriage return. */
  lemma {:induction false} BytesFail(decode: Decoder, s: ScanState, buffered: seq<Byte>, file: seq<Byte>)
    requires OneLine(buffered) && |buffered| <= MAX_LINE && LongLine(buffered + file)
    ensures Finish(decode, ScanReads(decode, s, buffered, Cut(file, false))).None?
    decreases |file|
  {
    hide SplitLines, ParseLines, Finish, Joined;
    FinishNothing(decode);
    if file == [] {
      assert buffered + file == buffered;
      JoinedNothing(buffered);
      JoinSplits([], buffered);
    } else {
      var chunks, tail := Cut(file, false), file[1..];
      var b := buffered + [file[0]];
      assert chunks[0] == [file[0]] && chunks[1..] == Cut(tail, false) && b + tail == buffered + file;
      ByteSplit(buffered, file[0]);
      SplitConcat(b, tail);
      var parsed := ParseLines(decode, s, SplitLines(b).lines);
      if parsed.Some? && |SplitLines(b).rest| <= MAX_LINE {
        BytesFail(decode, parsed.value, SplitLines(b).rest, tail);
      }
    }
  }

  lemma AtTheLimitReads(decode: Decoder, s: ScanState, file: seq<Byte>)
    requires AtTheLimit(decode, s, file)
    ensures Scanned(decode, s, Cut(file, true)) == ScanBytes(decode, s, file)
    ensures Scanned(decode, s, Cut(file, false)).None? && ScanBytes(decode, s, file).Some?
  {
    hide SplitLines, ScanBytes, ScanReads, Finish, Cut;
    assert [] + file == file;
    CarefulSucceeds(decode, s, [], file);
    BytesFail(decode, s, [], file);
  }

  /** All ways of reading a file give one result, unless its lines are accepted and one is at the limit. */
  lemma ReadsDoNotMatterIff(decode: Decoder, s: ScanState, file: seq<Byte>)
    ensures ReadsDoNotMatter(decode, s, file) <==> !AtTheLimit(decode, s, file)
  {
    hide Scanned, SplitLines, Tame, ScanBytes, Cut, Accepted;
    if AtTheLimit(decode, s, file) {
      AtTheLimitReads(decode, s, file);
      assert Scanned(decode, s, Cut(file, true)) != Scanned(decode, s, Cut(file, false));
    } else {
      if Accepted(decode, s, file) { OnlyAtTheLimit(decode, s, file); }
      forall a, b | Reads(a, file) && Reads(b, file) ensures Scanned(decode, s, a) == Scanned(decode, s, b) {
        ReadsVerdict(decode, s, a);
        ReadsVerdict(decode, s, b);
      }
    }
  }

  /** The carriage return counts only while its line is incomplete: a line whose body is exactly at the limit
      is accepted when it arrives together with the line feed, and refused when a read ends between them. */
  lemma ReadSizesMatterAtTheLimit(decode: Decoder, s: ScanState, body: seq<Byte>)
    requires OneLine(body) && |body| == MAX_LINE && ParseLine(decode, s, body + [CR]).Some?
    ensures var file := body + [CR, LF];
      Scanned(decode, s, Cut(file, true)).Some? && Scanned(decode, s, Cut(file, false)).None?
  {
    hide SplitLines, ParseLine, Cut, Scanned;
    var line := body + [CR];
    assert body + [CR, LF] == line + [LF];
    ByteSplit(line, LF);
    ParseOne(decode, s, line);
    var lines := SplitLines(line + [LF]).lines;
    assert AllLines(line + [LF]) == [line];
    assert |lines[0]| == MAX_LINE + 1 && lines[0][MAX_LINE] == CR;
    AtTheLimitReads(decode, s, body + [CR, LF]);
  }

  // ---------------------------------------------------------------- resuming after an append

  /** Resuming from an append-safe state is the same as scanning everything. */
  lemma IncrementalIsFull(decode: Decoder, original: seq<Byte>, appended: seq<Byte>)
    requires ScanBytes(decode, START, original).Some? && ScanBytes(decode, START, original).value.appendSafe
    ensures var cached := ScanBytes(decode, START, original).value.state;
      && ScanBytes(decode, cached, appended) == ScanBytes(decode, START, original + appended)
      && (Accepted(decode, cached, appended) <==> Accepted(decode, START, original + appended))
  {
    hide SplitLines, ParseLines;
    Resume(decode, START, original, appended);
    SplitConcat(original, appended);
    assert AllLines(original) == SplitLines(original).lines;
    assert SplitLines(original).rest + appended == appended;
  }

  /** The state of a scan that ended with a line feed, after what was appended and however that was read. */
  ghost predicate ResumingIsScanning(decode: Decoder, cached: ScanState, appended: seq<Byte>, file: seq<Byte>) {
    forall appendedReads, fullReads :: Reads(appendedReads, appended) && Reads(fullReads, file) ==>
      Scanned(decode, cached, appendedReads) == Scanned(decode, START, fullReads)
  }

  /** Resuming a scan gives what a full scan gives, whatever the reads of the old file, of what was appended
      and of the new file, if and only if the new file is not one that is accepted with a line at the limit. */
  lemma ResumedScanIsFullScan(decode: Decoder, original: seq<Byte>, originalReads: seq<seq<Byte>>, appended: seq<Byte>)
    requires Reads(originalReads, original)
    requires Scanned(decode, START, originalReads).Some? && Scanned(decode, START, originalReads).value.appendSafe
    ensures var cached := Scanned(decode, START, originalReads).value.state;
      var file := original + appended;
      ResumingIsScanning(decode, cached, appended, file) <==> !AtTheLimit(decode, START, file)
  {
    hide SplitLines, ScanBytes, Scanned, Tame, Accepted, Cut;
    var file := original + appended;
    var cached := Scanned(decode, START, originalReads).value.state;
    ReadsVerdict(decode, START, originalReads);
    IncrementalIsFull(decode, original, appended);
    if AtTheLimit(decode, START, file) {
      AtTheLimitReads(decode, START, file);
      CarefulIsWhole(decode, cached, appended);
      assert Scanned(decode, cached, Cut(appended, true)) != Scanned(decode, START, Cut(file, false));
    } else {
      if Accepted(decode, START, file) {
        OnlyAtTheLimit(decode, START, file);
        TameAppended(decode, original, appended);
      }
      forall appendedReads, fullReads | Reads(appendedReads, appended) && Reads(fullReads, file)
        ensures Scanned(decode, cached, appendedReads) == Scanned(decode, START, fullReads)
      {
        ReadsVerdict(decode, cached, appendedReads);
        ReadsVerdict(decode, START, fullReads);
      }
    }
  }

  lemma CarefulIsWhole(decode: Decoder, s: ScanState, file: seq<Byte>)
    requires Accepted(decode, s, file)
    ensures Scanned(decode, s, Cut(file, true)) == ScanBytes(decode, s, file)
  {
    hide SplitLines, ScanBytes, ScanReads, Finish, Cut;
    assert [] + file == file;
    CarefulSucceeds(decode, s, [], file);
  }

  lemma TameAppended(decode: Decoder, original: seq<Byte>, appended: seq<Byte>)
    requires ScanBytes(decode, START, original).Some? && ScanBytes(decode, START, original).value.appendSafe
    requires Tame(original + appended)
    ensures Tame(appended)
  {
    hide SplitLines, ParseLines, Tame;
    TameSuffix(original, appended);
    assert SplitLines(original).rest + appended == appended;
  }

  // ---------------------------------------------------------------- the append checkpoint

  function FirstBytes(b: seq<Byte>): seq<Byte> { if |b| <= CHECKPOINT then b else b[..CHECKPOINT] }

  function LastBytes(b: seq<Byte>): seq<Byte> { if |b| <= CHECKPOINT then b else b[|b| - CHECKPOINT..] }

  lemma LastOfLast(a: seq<Byte>, b: seq<Byte>)
    ensures LastBytes(LastBytes(a) + b) == LastBytes(a + b)
  {
    var n := |a| - |LastBytes(a)|;
    assert a == a[..n] + LastBytes(a);
    assert a + b == a[..n] + (LastBytes(a) + b);
  }

  lemma FirstOfFirst(a: seq<Byte>, b: seq<Byte>)
    ensures |FirstBytes(a)| < CHECKPOINT ==> FirstBytes(a) == a
    ensures |FirstBytes(a)| >= CHECKPOINT ==> FirstBytes(a + b) == FirstBytes(a)
  {
  }

  /** The first and last bytes of everything consumed, without keeping the rest. */
  class AppendCheckpointAccumulator {
    var prefix: seq<Byte>
    var suffix: seq<Byte>
    ghost var consumed: seq<Byte>

    ghost predicate Valid()
      reads this
    {
      prefix == FirstBytes(consumed) && suffix == LastBytes(consumed)
    }

    /** From scratch, or from the two windows of a file scanned before. */
    constructor (ghost scanned: seq<Byte>, prefix: seq<Byte>, suffix: seq<Byte>)
      requires prefix == FirstBytes(scanned) && suffix == LastBytes(scanned)
      ensures Valid() && consumed == scanned
    {
      this.prefix, this.suffix, consumed := prefix, suffix, scanned;
    }

    method Consume(bytes: seq<Byte>)
      requires Valid()
      modifies this
      ensures Valid() && consumed == old(consumed) + bytes
    {
      FirstOfFirst(consumed, bytes);
      LastOfLast(consumed, bytes);
      if |prefix| < CHECKPOINT {
        prefix := prefix + (if |bytes| <= CHECKPOINT - |prefix| then bytes else bytes[..CHECKPOINT - |prefix|]);
      }
      suffix := LastBytes(suffix + bytes);
      consumed := consumed + bytes;
    }
  }

  /** Seeded with the windows of the old file and fed what was appended, in any pieces, the accumulator ends
      with the windows a scan of the whole new file ends with. */
  method CheckpointAfterAppend(original: seq<Byte>, chunks: seq<seq<Byte>>)
    returns (prefix: seq<Byte>, suffix: seq<Byte>)
    ensures prefix == FirstBytes(original + Concat(chunks)) && suffix == LastBytes(original + Concat(chunks))
  {
    var accumulator := new AppendCheckpointAccumulator(original, FirstBytes(original), LastBytes(original));
    assert original + Concat(chunks[..0]) == original;
    for i := 0 to |chunks|
      invariant accumulator.Valid() && accumulator.consumed == original + Concat(chunks[..i])
    {
      ConcatLast(chunks, i);
      assert original + Concat(chunks[..i + 1]) == original + Concat(chunks[..i]) + chunks[i];
      accumulator.Consume(chunks[i]);
    }
    assert chunks[..|chunks|] == chunks;
    prefix, suffix := accumulator.prefix, accumulator.suffix;
  }

  /** A cached scan. The checkpoint digests stand for the windows themselves. */
  datatype Cached = Cached(identity: string, size: nat, scanOffset: nat, appendSafe: bool, state: ScanState,
                           checkpoint: Option<(seq<Byte>, seq<Byte>)>)

  /** What a scan of `file` leaves in the cache. */
  function CacheOf(identity: string, file: seq<Byte>, scan: Scan): Cached {
    Cached(identity, |file|, |file|, scan.appendSafe, scan.state,
           if scan.state.header.None? then None else Some((FirstBytes(file), LastBytes(file))))
  }

  /** `readSessionHeader`: the first line, if it ends within the limit. */
  function ReadHeader(decode: Decoder, file: seq<Byte>): Option<Header> {
    var i := FirstLf(file);
    if i == |file| || i > MAX_LINE then None
    else
      match decode(file[..i])
      case Malformed => None
      case Parsed(header, _) => header
  }

  /** `canIncrementallyScan`, for a file at the same path that now holds `file`. */
  predicate CanIncrement(decode: Decoder, cached: Cached, identity: string, file: seq<Byte>) {
    && cached.appendSafe && cached.state.header.Some? && cached.checkpoint.Some?
    && cached.identity == identity && cached.scanOffset == cached.size && |file| > cached.scanOffset
    && cached.checkpoint == Some((FirstBytes(file[..cached.size]), LastBytes(file[..cached.size])))
    && ReadHeader(decode, file) == cached.state.header
  }

  /** The header comes from the first line and is never replaced. */
  lemma {:induction false} HeaderStays(decode: Decoder, s: ScanState, lines: seq<seq<Byte>>)
    requires s.lineNumber > 0 && ParseLines(decode, s, lines).Some?
    ensures ParseLines(decode, s, lines).value.header == s.header
    decreases |lines|
  {
    if lines != [] { HeaderStays(decode, ParseLine(decode, s, lines[0]).value, lines[1..]); }
  }

  /** Exactly when a later file that begins with the scanned one is taken for an append, by every line parser
      that does not mind a carriage return before the line feed: the scan saw a header and ended with a line
      feed, something was appended, and the first line with its carriage return is not too long. */
  lemma AppendIsRecognised(decode: Decoder, identity: string, original: seq<Byte>, appended: seq<Byte>)
    requires forall l :: decode(l + [CR]) == decode(l)
    requires ScanBytes(decode, START, original).Some?
    ensures var scan := ScanBytes(decode, START, original).value;
      CanIncrement(decode, CacheOf(identity, original, scan), identity, original + appended) <==>
        scan.appendSafe && scan.state.header.Some? && appended != [] && FirstLf(original) <= MAX_LINE
  {
    hide ParseLine, ParseLines, SplitLines;
    var scan := ScanBytes(decode, START, original).value;
    assert (original + appended)[..|original|] == original;
    if scan.appendSafe && scan.state.header.Some? { SameHeader(decode, original, appended); }
  }

  /** The header of the longer file is the one the scan found, unless the first line is too long. */
  lemma SameHeader(decode: Decoder, original: seq<Byte>, appended: seq<Byte>)
    requires forall l :: decode(l + [CR]) == decode(l)
    requires ScanBytes(decode, START, original).Some?
    requires var scan := ScanBytes(decode, START, original).value; scan.appendSafe && scan.state.header.Some?
    ensures ReadHeader(decode, original + appended) ==
      if FirstLf(original) <= MAX_LINE then ScanBytes(decode, START, original).value.state.header else None
  {
    hide ParseLine, SplitLines, FirstLf;
    HasLine(decode, original);
    SameFirstLine(original, appended);
    var lines := AllLines(original);
    FirstLine(decode, lines[0]);
    HeaderStays(decode, ParseLine(decode, START, lines[0]).value, lines[1..]);
  }

  /** The first line of a file stays the first line of a longer one. */
  lemma SameFirstLine(original: seq<Byte>, appended: seq<Byte>)
    requires FirstLf(original) < |original|
    ensures var i, file := FirstLf(original), original + appended;
      FirstLf(file) == i && AllLines(original) != [] && AllLines(original)[0] == file[..i]
  {
    hide FirstLf, SplitLines;
    var i, file := FirstLf(original), original + appended;
    assert forall k :: 0 <= k <= i ==> file[k] == original[k];
    assert file[..i] == original[..i];
    SplitStep(original);
  }

  /** A header was found, so there is a line. */
  lemma HasLine(decode: Decoder, original: seq<Byte>)
    requires ScanBytes(decode, START, original).Some?
    requires var scan := ScanBytes(decode, START, original).value; scan.appendSafe && scan.state.header.Some?
    ensures FirstLf(original) < |original|
  {
  }

  lemma FirstLine(decode: Decoder, raw: seq<Byte>)
    requires forall l :: decode(l + [CR]) == decode(l)
    requires ParseLine(decode, START, raw).Some?
    ensures ParseLine(decode, START, raw).value.lineNumber > 0
    ensures decode(raw).Parsed? && ParseLine(decode, START, raw).value.header == decode(raw).header
  {
    if raw != [] && raw[|raw| - 1] == CR { assert raw == Body(raw) + [CR]; }
  }

  /** Two files agree on the windows of their first `size` bytes. */
  predicate OnlyMiddleDiffers(a: seq<Byte>, b: seq<Byte>, size: nat)
    requires size <= |a| && size <= |b|
  {
    forall i :: 0 <= i < size && a[i] != b[i] ==> CHECKPOINT <= i && i + CHECKPOINT < size
  }

  /** A file that is taken for an append of the scanned one, its first line in the first window, and then
      rewritten: it is still taken for one if and only if the scanned part differs nowhere but between the
      windows at its two ends. */
  lemma MiddleEditIsUnseen(decode: Decoder, cached: Cached, identity: string, file: seq<Byte>, rewritten: seq<Byte>)
    requires CanIncrement(decode, cached, identity, file) && |rewritten| > cached.size
    requires FirstLf(file) < CHECKPOINT && FirstLf(file) < cached.size
    ensures CanIncrement(decode, cached, identity, rewritten) <==> OnlyMiddleDiffers(file, rewritten, cached.size)
  {
    hide FirstLf, ReadHeader;
    var a, b := file[..cached.size], rewritten[..cached.size];
    SameWindows(a, b);
    if OnlyMiddleDiffers(a, b, cached.size) {
      SameFirstBytes(file, rewritten, cached.size);
      SameReadHeader(decode, file, rewritten);
    }
  }

  lemma SameWindows(a: seq<Byte>, b: seq<Byte>)
    requires |a| == |b|
    ensures FirstBytes(a) == FirstBytes(b) && LastBytes(a) == LastBytes(b) <==> OnlyMiddleDiffers(a, b, |a|)
  {
    if FirstBytes(a) == FirstBytes(b) && LastBytes(a) == LastBytes(b) && |a| > CHECKPOINT {
      forall i | 0 <= i < |a| && (i < CHECKPOINT || i + CHECKPOINT >= |a|) ensures a[i] == b[i] {
        if i < CHECKPOINT {
          assert FirstBytes(a)[i] == a[i];
        } else {
          assert LastBytes(a)[i - (|a| - CHECKPOINT)] == a[i];
        }
      }
    }
  }

  lemma SameFirstBytes(file: seq<Byte>, rewritten: seq<Byte>, size: nat)
    requires size <= |file| && size <= |rewritten| && OnlyMiddleDiffers(file, rewritten, size)
    requires FirstLf(file) < CHECKPOINT && FirstLf(file) < size
    ensures forall i :: 0 <= i <= FirstLf(file) ==> file[i] == rewritten[i]
  {
    hide FirstLf;
  }

  /** The header is read from the first line alone. */
  lemma SameReadHeader(decode: Decoder, a: seq<Byte>, b: seq<Byte>)
    requires FirstLf(a) < |a| && FirstLf(a) < |b| && forall i :: 0 <= i <= FirstLf(a) ==> a[i] == b[i]
    ensures ReadHeader(decode, a) == ReadHeader(decode, b)
  {
    hide FirstLf;
    assert a[..FirstLf(a)] == b[..FirstLf(a)];
  }

  // ---------------------------------------------------------------- and it changes the result

  lemma {:induction false} TameParses(decode: Decoder, s: ScanState, lines: seq<seq<Byte>>)
    requires s.lineNumber > 0 && forall k :: 0 <= k < |lines| ==> |lines[k]| <= MAX_LINE
    ensures ParseLines(decode, s, lines).Some?
    decreases |lines|
  {
    if lines != [] { TameParses(decode, ParseLine(decode, s, lines[0]).value, lines[1..]); }
  }

  /** Past the first line, the messages counted do not depend on the state. */
  lemma {:induction false} CountsAlike(decode: Decoder, a: ScanState, b: ScanState, lines: seq<seq<Byte>>)
    requires a.lineNumber > 0 && b.lineNumber > 0
    requires ParseLines(decode, a, lines).Some? && ParseLines(decode, b, lines).Some?
    ensures ParseLines(decode, a, lines).value.messageCount - a.messageCount ==
      ParseLines(decode, b, lines).value.messageCount - b.messageCount
    decreases |lines|
  {
    if lines != [] {
      CountsAlike(decode, ParseLine(decode, a, lines[0]).value, ParseLine(decode, b, lines[0]).value, lines[1..]);
    }
  }

  /** A file of four lines: a header, padding, some line, padding. */
  function Padded(header: seq<Byte>, padding: seq<Byte>, line: seq<Byte>): seq<Byte> {
    header + [LF] + padding + [LF] + line + [LF] + padding + [LF]
  }

  /** The header and the padding fit the windows, and the header is one. */
  predicate Padding(decode: Decoder, header: seq<Byte>, padding: seq<Byte>) {
    && OneLine(header) && OneLine(padding) && |header| < CHECKPOINT <= |padding| <= MAX_LINE
    && decode(header) == decode(Body(header)) && decode(header).Parsed? && decode(header).header.Some?
  }

  lemma PaddedLines(header: seq<Byte>, padding: seq<Byte>, line: seq<Byte>)
    requires OneLine(header) && OneLine(padding) && OneLine(line)
    ensures AllLines(Padded(header, padding, line)) == [header, padding, line, padding]
    ensures SplitLines(Padded(header, padding, line)).rest == []
  {
    hide SplitLines, Joined;
    var none: seq<seq<Byte>> := [];
    JoinedNothing([]);
    JoinedStep(padding, none, []);
    JoinedStep(line, [padding], []);
    JoinedStep(padding, [line, padding], []);
    JoinedStep(header, [padding, line, padding], []);
    assert [padding] + none == [padding] && [line] + [padding] == [line, padding];
    assert [padding] + [line, padding] == [padding, line, padding];
    assert [header] + [padding, line, padding] == [header, padding, line, padding];
    assert Padded(header, padding, line) == Joined([header, padding, line, padding], []);
    JoinSplits([header, padding, line, padding], []);
  }

  /** The state after the header and the padding. */
  lemma PaddedStart(decode: Decoder, header: seq<Byte>, padding: seq<Byte>) returns (s: ScanState)
    requires Padding(decode, header, padding)
    ensures s.lineNumber > 0 && s.header == decode(header).header
    ensures forall lines :: ParseLines(decode, START, [header, padding] + lines) == ParseLines(decode, s, lines)
  {
    hide Body, Apply;
    BodyLength(header);
    BodyLength(padding);
    var first := ParseLine(decode, START, header).value;
    TameParses(decode, first, [padding]);
    HeaderStays(decode, first, [padding]);
    LinesStay(decode, first, [padding]);
    ParseOne(decode, first, padding);
    s := ParseLine(decode, first, padding).value;
    forall lines ensures ParseLines(decode, START, [header, padding] + lines) == ParseLines(decode, s, lines) {
      var all := [header, padding] + lines;
      assert all[0] == header && all[1..] == [padding] + lines;
      assert all[1..][0] == padding && all[1..][1..] == lines;
    }
  }

  /** Both files are scanned to the end; a message counts, anything else does not. */
  lemma PaddedScans(decode: Decoder, header: seq<Byte>, padding: seq<Byte>, message: seq<Byte>, other: seq<Byte>)
    requires Padding(decode, header, padding) && OneLine(message) && OneLine(other)
    requires |message| <= MAX_LINE && |other| <= MAX_LINE
    requires decode(Body(message)).Parsed? && decode(Body(message)).body.Message?
    requires decode(Body(other)).Malformed? || decode(Body(other)).body.Other?
    ensures var a, b := ScanBytes(decode, START, Padded(header, padding, message)),
        ScanBytes(decode, START, Padded(header, padding, other));
      && a.Some? && b.Some? && a.value.appendSafe && b.value.appendSafe
      && a.value.state.lineNumber > 0 && b.value.state.lineNumber > 0
      && a.value.state.header == decode(header).header
      && a.value.state.messageCount == b.value.state.messageCount + 1
  {
    hide SplitLines, ParseLines, Padded, Body;
    PaddedLines(header, padding, message);
    PaddedLines(header, padding, other);
    var s := PaddedStart(decode, header, padding);
    assert [header, padding, message, padding] == [header, padding] + [message, padding];
    assert [header, padding, other, padding] == [header, padding] + [other, padding];
    BodyLength(message);
    BodyLength(other);
    BodyLength(padding);
    var a, b := ParseLine(decode, s, message).value, ParseLine(decode, s, other).value;
    PairParses(decode, s, message, padding);
    PairParses(decode, s, other, padding);
    TameParses(decode, a, [padding]);
    TameParses(decode, b, [padding]);
    HeaderStays(decode, a, [padding]);
    CountsAlike(decode, a, b, [padding]);
    LinesStay(decode, a, [padding]);
    LinesStay(decode, b, [padding]);
  }

  lemma PairParses(decode: Decoder, s: ScanState, a: seq<Byte>, b: seq<Byte>)
    requires ParseLine(decode, s, a).Some?
    ensures ParseLines(decode, s, [a, b]) == ParseLines(decode, ParseLine(decode, s, a).value, [b])
  {
    hide ParseLine;
    assert [a, b][1..] == [b];
  }

  lemma {:induction false} LinesStay(decode: Decoder, s: ScanState, lines: seq<seq<Byte>>)
    requires s.lineNumber > 0 && ParseLines(decode, s, lines).Some?
    ensures ParseLines(decode, s, lines).value.lineNumber > 0
    decreases |lines|
  {
    if lines != [] { LinesStay(decode, ParseLine(decode, s, lines[0]).value, lines[1..]); }
  }

  lemma AppendedCounts(decode: Decoder, a: ScanState, b: ScanState, appended: seq<Byte>)
    requires a.lineNumber > 0 && b.lineNumber > 0 && Tame(appended)
    ensures var x, y := ScanBytes(decode, a, appended), ScanBytes(decode, b, appended);
      x.Some? && y.Some? && x.value.state.messageCount - y.value.state.messageCount == a.messageCount - b.messageCount
  {
    hide SplitLines, ParseLine, ParseLines;
    TameParses(decode, a, AllLines(appended));
    TameParses(decode, b, AllLines(appended));
    CountsAlike(decode, a, b, AllLines(appended));
  }

  lemma OriginalIsAppend(decode: Decoder, header: seq<Byte>, padding: seq<Byte>, line: seq<Byte>,
      appended: seq<Byte>, scan: Scan)
    requires Padding(decode, header, padding) && appended != []
    requires scan.appendSafe && scan.state.header == decode(header).header
    ensures var original := Padded(header, padding, line);
      && CanIncrement(decode, CacheOf("file", original, scan), "file", original + appended)
      && FirstLf(original + appended) == |header|
  {
    hide FirstLf, FirstBytes, LastBytes, Body;
    var original := Padded(header, padding, line);
    assert (original + appended)[..|original|] == original;
    var after := padding + [LF] + line + [LF] + padding + [LF] + appended;
    assert original + appended == header + [LF] + after;
    FirstLfOf(header, after);
    assert (original + appended)[..|header|] == header;
  }

  lemma MiddleDiffers(header: seq<Byte>, padding: seq<Byte>, a: seq<Byte>, b: seq<Byte>, appended: seq<Byte>)
    requires |padding| >= CHECKPOINT && |a| == |b|
    ensures var original, edited := Padded(header, padding, a), Padded(header, padding, b);
      |original| == |edited| && OnlyMiddleDiffers(original + appended, edited + appended, |original|)
  {
    var start, end := header + [LF] + padding + [LF], [LF] + padding + [LF];
    assert Padded(header, padding, a) == start + a + end && Padded(header, padding, b) == start + b + end;
    InBetween(start, a, b, end, appended);
  }

  lemma InBetween(start: seq<Byte>, a: seq<Byte>, b: seq<Byte>, end: seq<Byte>, appended: seq<Byte>)
    requires |start| >= CHECKPOINT && |end| > CHECKPOINT && |a| == |b|
    ensures OnlyMiddleDiffers(start + a + end + appended, start + b + end + appended, |start + a + end|)
  {
  }

  /** The overwritten file is taken for an append. */
  lemma EditedIsAppend(decode: Decoder, header: seq<Byte>, padding: seq<Byte>, message: seq<Byte>, other: seq<Byte>,
      appended: seq<Byte>, scan: Scan)
    requires Padding(decode, header, padding) && |message| == |other| && appended != []
    requires scan.appendSafe && scan.state.header == decode(header).header
    ensures var original := Padded(header, padding, message);
      CanIncrement(decode, CacheOf("file", original, scan), "file", Padded(header, padding, other) + appended)
  {
    hide FirstLf, CanIncrement, OnlyMiddleDiffers, Body, FirstBytes, LastBytes;
    var original, edited := Padded(header, padding, message), Padded(header, padding, other);
    OriginalIsAppend(decode, header, padding, message, appended, scan);
    MiddleDiffers(header, padding, message, other, appended);
    MiddleEditIsUnseen(decode, CacheOf("file", original, scan), "file", original + appended, edited + appended);
  }

  /** A line in the middle of a scanned file is overwritten: it was a message and is none any more. The file is
      still taken for an append, and the resumed scan counts one message more than a scan of the file. */
  lemma ResumedScanMissesEdit(decode: Decoder, header: seq<Byte>, padding: seq<Byte>, message: seq<Byte>,
      other: seq<Byte>, appended: seq<Byte>)
    requires Padding(decode, header, padding) && OneLine(message) && OneLine(other)
    requires |message| == |other| <= MAX_LINE && appended != [] && Tame(appended)
    requires decode(Body(message)).Parsed? && decode(Body(message)).body.Message?
    requires decode(Body(other)).Malformed? || decode(Body(other)).body.Other?
    ensures var original := Padded(header, padding, message);
      var file := Padded(header, padding, other) + appended;
      var scan := ScanBytes(decode, START, original);
      && scan.Some? && CanIncrement(decode, CacheOf("file", original, scan.value), "file", file)
      && var resumed, full := ScanBytes(decode, scan.value.state, appended), ScanBytes(decode, START, file);
         resumed.Some? && full.Some? && resumed.value.state.messageCount == full.value.state.messageCount + 1
  {
    hide SplitLines, ParseLines, Padded, ScanBytes, Padding, CanIncrement, CacheOf, Tame, Body;
    PaddedScans(decode, header, padding, message, other);
    var was := ScanBytes(decode, START, Padded(header, padding, message)).value;
    var edited := ScanBytes(decode, START, Padded(header, padding, other)).value;
    IncrementalIsFull(decode, Padded(header, padding, other), appended);
    AppendedCounts(decode, was.state, edited.state, appended);
    EditedIsAppend(decode, header, padding, message, other, appended, was);
  }

  /** `H` is a header and `M` a message. */
  function ByLetter(line: seq<Byte>): LineValue {
    if line == [0x48] then Parsed(Some(Header("id", "/", None, None)), Other)
    else Parsed(None, if line == [0x4d] then Message(true, true, None, "hello") else Other)
  }

  /** Such a file: blanks, a message overwritten by another letter, blanks. */
  lemma AnEditIsMissed()
    ensures var blanks := seq(CHECKPOINT, _ => 0x20);
      var original, file := Padded([0x48], blanks, [0x4d]), Padded([0x48], blanks, [0x4e]) + [LF];
      var scan := ScanBytes(ByLetter, START, original);
      && scan.Some? && CanIncrement(ByLetter, CacheOf("file", original, scan.value), "file", file)
      && ScanBytes(ByLetter, scan.value.state, [LF]) != ScanBytes(ByLetter, START, file)
  {
    hide Padded, ScanBytes, CanIncrement, CacheOf, FirstLf;
    var blanks: seq<Byte> := seq(CHECKPOINT, _ => 0x20);
    var none: seq<seq<Byte>> := [];
    JoinedNothing([]);
    JoinedStep([], none, []);
    assert [LF] == Joined([[]], []);
    JoinSplits([[]], []);
    assert AllLines([LF]) == [[]];
    assert OneLine(blanks);
    ResumedScanMissesEdit(ByLetter, [0x48], blanks, [0x4d], [0x4e], [LF]);
  }
}

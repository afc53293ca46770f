/** The live projection of a session as values: reducing inputs, delta coalescing, cached sizes, and the
    arithmetic estimate of the snapshot's size. */
module LiveProjection {
  import opened Prelude
  import opened Utf8
  import opened Json
  import opened BoundedUtf8Codec
  import opened JsonCounters
  import opened SessionSchema
  import opened ContentProducts

  const MAX_SAFE_SEQ: nat := 9007199254740991

  // ---------------------------------------------------------------- events and frames

  datatype DeltaKind = TextDelta | ThinkingDelta | ToolCallDelta

  /** Streaming deltas, queue updates, and everything the projection only stores. */
  datatype Event =
    | Delta(kind: DeltaKind, contentIndex: nat, delta: Text, usage: Json)
    | QueueUpdate(steering: seq<Text>, followUp: seq<Text>)
    | Other(body: Json)

  datatype Identity = Identity(serverEpoch: Text, sessionHandle: Text, workspaceId: Text, generation: nat)

  datatype Frame = Frame(seq_: nat, event: Event)

  function KindWord(kind: DeltaKind): Text {
    match kind
    case TextDelta => Word("text_delta")
    case ThinkingDelta => Word("thinking_delta")
    case ToolCallDelta => Word("toolcall_delta")
  }

  function NumberJson(n: nat): Json { Num(Decimal(n)) }

  function DeltaFields(kind: DeltaKind, contentIndex: nat, delta: Text): seq<Field> {
    [FieldOf("type", Str(KindWord(kind))), FieldOf("contentIndex", NumberJson(contentIndex)),
     FieldOf("delta", Str(delta))]
  }

  function UpdateFields(usage: Json, stream: Json): seq<Field> {
    [FieldOf("type", Str(Word("message_update"))), FieldOf("usage", usage), FieldOf("assistantMessageEvent", stream)]
  }

  function Strings(texts: seq<Text>): (r: seq<Json>)
    ensures |r| == |texts|
  {
    seq(|texts|, i requires 0 <= i < |texts| => Str(texts[i]))
  }

  function EventJson(e: Event): Json {
    match e
    case Delta(kind, contentIndex, delta, usage) =>
      Obj(UpdateFields(usage, Obj(DeltaFields(kind, contentIndex, delta))))
    case QueueUpdate(steering, followUp) =>
      Obj([FieldOf("type", Str(Word("queue_update"))), FieldOf("steering", Arr(Strings(steering))),
           FieldOf("followUp", Arr(Strings(followUp)))])
    case Other(body) => body
  }

  function IdentityFields(id: Identity): (r: seq<Field>)
    ensures |r| == 4
  {
    [FieldOf("serverEpoch", Str(id.serverEpoch)), FieldOf("sessionHandle", Str(id.sessionHandle)),
     FieldOf("workspaceId", Str(id.workspaceId)), FieldOf("generation", NumberJson(id.generation))]
  }

  function FrameFields(id: Identity, seq_: nat, event: Json): (r: seq<Field>)
    ensures |r| == 7
  {
    [FieldOf("type", Str(Word("event")))] + IdentityFields(id) + [FieldOf("seq", NumberJson(seq_)),
     FieldOf("event", event)]
  }

  function FrameJson(id: Identity, f: Frame): Json { Obj(FrameFields(id, f.seq_, EventJson(f.event))) }

  function FrameBytes(id: Identity, f: Frame): nat { JsonBytes(FrameJson(id, f)) }

  function FramesJson(id: Identity, frames: seq<Frame>): (r: seq<Json>)
    ensures |r| == |frames| && forall i :: 0 <= i < |frames| ==> r[i] == FrameJson(id, frames[i])
  {
    seq(|frames|, i requires 0 <= i < |frames| => FrameJson(id, frames[i]))
  }

  function FrameSizes(id: Identity, frames: seq<Frame>): (r: seq<nat>)
    ensures |r| == |frames| && forall i :: 0 <= i < |frames| ==> r[i] == FrameBytes(id, frames[i])
  {
    seq(|frames|, i requires 0 <= i < |frames| => FrameBytes(id, frames[i]))
  }

  // ---------------------------------------------------------------- state

  datatype Phase = Starting | Idle | Running | WaitingUi | Crashed | Dormant

  datatype Queue = Queue(steering: seq<Text>, followUp: seq<Text>)

  datatype Request = Request(id: Text, method_: Text, body: Json)

  datatype Data = Data(
    baseSeq: nat,
    asOfSeq: nat,
    settled: seq<Json>,
    settledBytes: nat,
    events: seq<Frame>,
    frameBytes: seq<nat>,
    eventBytes: nat,
    queue: Queue,
    pending: seq<Request>,
    phase: Phase)

  /** The limits in force: where the source takes the minimum of two limits, this is the minimum. */
  datatype Config = Config(
    identity: Identity,
    maxSettledItems: nat,
    maxSettledBytes: nat,
    maxEvents: nat,
    maxSuffixBytes: nat,
    maxEventBytes: nat,
    maxQueueItems: nat,
    maxExtensionItems: nat,
    maxExtensionBytes: nat,
    maxSnapshotBytes: nat,
    guardMessage: Json -> bool,
    guardEvent: Event -> bool,
    guardRequest: Request -> bool,
    eventWithinLogicalLimit: Event -> bool,
    requestWithinLogicalLimit: Request -> bool)

  datatype Input =
    | EventInput(event: Event)
    | RequestInput(request: Request)
    | ClosedInput(requestId: Text)

  /** The source reports the second to fourth as one boundary, "live_events". */
  datatype Error =
    BadPayload | SeqExhausted | EventTooLarge | SuffixFull | QueueFull | ExtensionFull | SnapshotTooLarge | SettledFull

  // ---------------------------------------------------------------- coalescing

  /** Consecutive deltas of one kind and content index become one, if the guard accepts it. */
  function Merge(c: Config, previous: Event, next: Event): Option<Event> {
    if !previous.Delta? || !next.Delta? || previous.kind != next.kind || previous.contentIndex != next.contentIndex then
      None
    else
      var merged := next.(delta := previous.delta + next.delta);
      if c.guardEvent(merged) then Some(merged) else None
  }

  // ---------------------------------------------------------------- extension requests

  predicate Blocking(method_: Text) {
    method_ == Word("select") || method_ == Word("confirm") || method_ == Word("input") || method_ == Word("editor")
  }

  function Without(pending: seq<Request>, id: Text): seq<Request> {
    if pending == [] then []
    else if pending[0].id == id then Without(pending[1..], id)
    else [pending[0]] + Without(pending[1..], id)
  }

  function RequestJson(r: Request): Json { r.body }

  function RequestsJson(pending: seq<Request>): (r: seq<Json>)
    ensures |r| == |pending|
  {
    seq(|pending|, i requires 0 <= i < |pending| => RequestJson(pending[i]))
  }

  // ---------------------------------------------------------------- the snapshot and its estimate

  function PhaseWord(phase: Phase): Text {
    match phase
    case Starting => Word("starting")
    case Idle => Word("idle")
    case Running => Word("running")
    case WaitingUi => Word("waiting_ui")
    case Crashed => Word("crashed")
    case Dormant => Word("dormant")
  }

  function ShownPhase(d: Data): Phase { if d.pending != [] then WaitingUi else d.phase }

  function QueueJson(q: Queue): Json {
    Obj([FieldOf("steering", Arr(Strings(q.steering))), FieldOf("followUp", Arr(Strings(q.followUp)))])
  }

  function SnapshotFields(id: Identity, d: Data, settled: seq<Json>, events: seq<Json>,
      pending: seq<Json>): (r: seq<Field>)
    ensures |r| == 12
  {
    IdentityFields(id) +
    [FieldOf("baseSeq", NumberJson(d.baseSeq)), FieldOf("asOfSeq", NumberJson(d.asOfSeq)),
     FieldOf("runtimePhase", Str(PhaseWord(ShownPhase(d)))),
     FieldOf("settledMessages", Arr(settled)), FieldOf("projectionEvents", Arr(events)),
       FieldOf("queue", QueueJson(d.queue)),
     FieldOf("pendingExtensionRequests", Arr(pending)), FieldOf("stickyExtensionState", Arr([]))]
  }

  /** `snapshot()`. */
  function SnapshotJson(id: Identity, d: Data): Json {
    Obj(SnapshotFields(id, d, d.settled, FramesJson(id, d.events), RequestsJson(d.pending)))
  }

  function ScaffoldJson(id: Identity, d: Data): Json { Obj(SnapshotFields(id, d, [], [], [])) }

  /** `serializedArrayContentsBytes` and `serializedItemsArrayContentsBytes`. */
  function ArrayContents(serialized: nat): nat { if serialized < 2 then 0 else serialized - 2 }

  function ItemsContents(bytes: nat, count: nat): nat { if count == 0 then 0 else bytes + count - 1 }

  function Estimate(id: Identity, d: Data): nat {
    JsonBytes(ScaffoldJson(id, d)) + ArrayContents(d.settledBytes) + ItemsContents(d.eventBytes, |d.events|)
    + ArrayContents(JsonBytes(Arr(RequestsJson(d.pending))))
  }

  // ---------------------------------------------------------------- reducing one input

  function Phased(d: Data, phase: Option<Phase>): Data { if phase.Some? then d.(phase := phase.value) else d }

  /** The last frame, when the next event may join it. */
  function Joined(c: Config, d: Data, event: Event): Option<Event> {
    if d.events == [] || d.events[|d.events| - 1].seq_ != d.asOfSeq then None
    else Merge(c, d.events[|d.events| - 1].event, event)
  }

  function NextQueue(d: Data, event: Event): Queue {
    if event.QueueUpdate? then Queue(event.steering, event.followUp) else d.queue
  }

  /** The data with the frame in place, in the place of the last one when it was joined. */
  function WithFrame(d: Data, frame: Frame, bytes: nat, joining: bool, queue: Queue): Data {
    if joining && d.events != [] && |d.frameBytes| == |d.events| && d.eventBytes >= d.frameBytes[|d.events| - 1] then
      var last := |d.events| - 1;
      d.(asOfSeq := frame.seq_, events := d.events[..last] + [frame], frameBytes := d.frameBytes[..last] + [bytes],
         eventBytes := d.eventBytes - d.frameBytes[last] + bytes, queue := queue)
    else
      d.(asOfSeq := frame.seq_, events := d.events + [frame], frameBytes := d.frameBytes + [bytes],
         eventBytes := d.eventBytes + bytes, queue := queue)
  }

  function ReduceEvent(c: Config, d: Data, event: Event): Result<Data, Error> {
    if !c.guardEvent(event) then Err(BadPayload)
    else
      var joined := Joined(c, d, event);
      var frame := Frame(d.asOfSeq + 1, if joined.Some? then joined.value else event);
      var bytes := FrameBytes(c.identity, frame);
      if !c.eventWithinLogicalLimit(frame.event) || bytes > c.maxEventBytes then Err(EventTooLarge)
      else
        var next := WithFrame(d, frame, bytes, joined.Some?, NextQueue(d, event));
        if |next.events| > c.maxEvents || next.eventBytes > c.maxSuffixBytes then Err(SuffixFull)
        else if |next.queue.steering| > c.maxQueueItems || |next.queue.followUp| > c.maxQueueItems then Err(QueueFull)
        else Ok(next)
  }

  function ReduceRequest(c: Config, d: Data, request: Request): Result<Data, Error> {
    if !c.guardRequest(request) then Err(BadPayload)
    else if !c.requestWithinLogicalLimit(request) then Err(ExtensionFull)
    else
      var pending := if Blocking(request.method_) then Without(d.pending, request.id) + [request] else d.pending;
      if |pending| > c.maxExtensionItems || JsonBytes(Arr(RequestsJson(pending))) > c.maxExtensionBytes then
        Err(ExtensionFull)
      else Ok(d.(asOfSeq := d.asOfSeq + 1, pending := pending))
  }

  function ReduceInput(c: Config, d: Data, input: Input): Result<Data, Error> {
    match input
    case EventInput(event) => ReduceEvent(c, d, event)
    case RequestInput(request) => ReduceRequest(c, d, request)
    case ClosedInput(id) => Ok(d.(asOfSeq := d.asOfSeq + 1, pending := Without(d.pending, id)))
  }

  /** `reduceCandidate`. */
  function Reduce(c: Config, d: Data, input: Input, phase: Option<Phase>): Result<Data, Error> {
    if d.asOfSeq + 1 > MAX_SAFE_SEQ then Err(SeqExhausted)
    else
      match ReduceInput(c, d, input)
      case Err(e) => Err(e)
      case Ok(next) =>
        var phased := Phased(next, phase);
        if Estimate(c.identity, phased) > c.maxSnapshotBytes then Err(SnapshotTooLarge) else Ok(phased)
  }

  /** The inputs of a batch, one after the other; the first error ends it. */
  function ReduceAll(c: Config, d: Data, inputs: seq<Input>, phase: Option<Phase>): Result<Data, Error> {
    if inputs == [] then Ok(d)
    else
      match ReduceAll(c, d, inputs[..|inputs| - 1], phase)
      case Err(e) => Err(e)
      case Ok(before) => Reduce(c, before, inputs[|inputs| - 1], phase)
  }

  // ---------------------------------------------------------------- sizes of records

  /** Replacing one field's value changes the size by the difference of the values' sizes. */
  lemma {:induction false} ReplaceField(fields: seq<Field>, i: nat, v: Json)
    requires i < |fields|
    ensures FieldBytesAll(fields[i := Field(fields[i].key, v)]) + JsonBytes(fields[i].value) ==
      FieldBytesAll(fields) + JsonBytes(v)
  {
    hide JsonBytes, Encode, StringText;
    var replaced := fields[i := Field(fields[i].key, v)];
    if i == 0 {
      assert replaced[1..] == fields[1..];
      FieldMeans(fields[0]);
      FieldMeans(replaced[0]);
    } else {
      ReplaceField(fields[1..], i - 1, v);
      assert replaced[1..] == fields[1..][i - 1 := Field(fields[i].key, v)];
    }
  }

  lemma ReplaceInObject(fields: seq<Field>, i: nat, v: Json)
    requires i < |fields|
    ensures JsonBytes(Obj(fields[i := Field(fields[i].key, v)])) + JsonBytes(fields[i].value) ==
      JsonBytes(Obj(fields)) + JsonBytes(v)
  {
    ReplaceField(fields, i, v);
  }

  // ---------------------------------------------------------------- merging shrinks

  lemma EscapedPair(hi: Unit, lo: Unit)
    requires IsHigh(hi) && IsLow(lo)
    ensures |Encode(Escape([hi]))| == 6 && |Encode(Escape([lo]))| == 6 && |Encode(Escape([hi, lo]))| == 4
  {
    assert [hi][1..] == [] && [lo][1..] == [] && [hi, lo][2..] == [] && [hi, lo][..2] == [hi, lo];
    AsciiEncode(UnicodeEscape(hi));
    AsciiEncode(UnicodeEscape(lo));
    assert EscapeUnit(hi) + [] == EscapeUnit(hi) && EscapeUnit(lo) + [] == EscapeUnit(lo);
    assert Encode([hi, lo]) == Pair(hi, lo) + Encode([]);
  }

  lemma EscapedConcat(a: Text, b: Text)
    requires Separable(a, b)
    ensures |Encode(Escape(a + b))| == |Encode(Escape(a))| + |Encode(Escape(b))|
  {
    EscapeConcat(a, b);
    EscapeStart(b);
    EncodeConcat(Escape(a), Escape(b));
  }

  /** Joining two strings never needs more bytes than both; where a surrogate pair comes together, it needs
      eight bytes less. */
  lemma JoinShrinks(a: Text, b: Text)
    ensures |Encode(Escape(a + b))| == |Encode(Escape(a))| + |Encode(Escape(b))| - if Separable(a, b) then 0 else 8
  {
    hide Encode, Escape;
    if Separable(a, b) {
      EscapedConcat(a, b);
    } else {
      var p, n := a[..|a| - 1], b[1..];
      var hi, lo := a[|a| - 1], b[0];
      EscapedPair(hi, lo);
      assert a == p + [hi] && b == [lo] + n && a + b == p + ([hi, lo] + n);
      EscapedConcat(p, [hi]);
      EscapedConcat([lo], n);
      EscapedConcat([hi, lo], n);
      EscapedConcat(p, [hi, lo] + n);
    }
  }

  /** The size of a delta frame, apart from its text. */
  lemma DeltaFrameBytes(id: Identity, seq_: nat, e: Event, delta: Text)
    requires e.Delta?
    ensures FrameBytes(id, Frame(seq_, e.(delta := delta))) + |Encode(Escape(e.delta))| ==
      FrameBytes(id, Frame(seq_, e)) + |Encode(Escape(delta))|
  {
    hide JsonBytes, Word, Encode, Escape, Decimal;
    var inner := DeltaFields(e.kind, e.contentIndex, e.delta);
    var stream := Obj(inner);
    var update := UpdateFields(e.usage, stream);
    var frame := FrameFields(id, seq_, Obj(update));
    var stream' := Obj(inner[2 := FieldOf("delta", Str(delta))]);
    ReplaceInObject(inner, 2, Str(delta));
    ReplaceInObject(update, 2, stream');
    ReplaceInObject(frame, 6, Obj(update[2 := Field(update[2].key, stream')]));
    StringBytesOf(e.delta);
    StringBytesOf(delta);
    assert DeltaFields(e.kind, e.contentIndex, delta) == inner[2 := Field(inner[2].key, Str(delta))];
    assert UpdateFields(e.usage, stream') == update[2 := Field(update[2].key, stream')];
    assert FrameFields(id, seq_, Obj(UpdateFields(e.usage, stream'))) ==
      frame[6 := Field(frame[6].key, Obj(UpdateFields(e.usage, stream')))];
  }

  lemma StringBytesOf(s: Text)
    ensures JsonBytes(Str(s)) == 2 + |Encode(Escape(s))|
  {
    QuotedWhole(s);
  }

  lemma DeltaFrameHolds(id: Identity, seq_: nat, e: Event)
    requires e.Delta?
    ensures FrameBytes(id, Frame(seq_, e)) >= |Encode(Escape(e.delta))|
  {
    DeltaFrameBytes(id, seq_, e, []);
    assert Escape([]) == [] && Encode([]) == [];
  }

  /** A joined frame is at most as long as the two frames it stands for. */
  lemma MergedFrameFits(c: Config, previous: Frame, next: Event, seq_: nat)
    requires Merge(c, previous.event, next).Some?
    ensures FrameBytes(c.identity, Frame(seq_, Merge(c, previous.event, next).value))
         <= FrameBytes(c.identity, previous) + FrameBytes(c.identity, Frame(seq_, next))
  {
    hide FrameBytes, Encode, Escape;
    DeltaFrameBytes(c.identity, seq_, next, previous.event.delta + next.delta);
    DeltaFrameHolds(c.identity, previous.seq_, previous.event);
    assert previous == Frame(previous.seq_, previous.event);
    JoinShrinks(previous.event.delta, next.delta);
  }

  // ---------------------------------------------------------------- the invariant

  function SumOf(sizes: seq<nat>): nat { if sizes == [] then 0 else SumOf(sizes[..|sizes| - 1]) + sizes[|sizes| - 1] }

  predicate Increasing(frames: seq<Frame>, low: nat, high: nat) {
    && (forall i :: 0 <= i < |frames| ==> low < frames[i].seq_ <= high)
    && (forall i, j :: 0 <= i < j < |frames| ==> frames[i].seq_ < frames[j].seq_)
  }

  ghost predicate SizesExact(id: Identity, d: Data) {
    && d.frameBytes == FrameSizes(id, d.events)
    && d.eventBytes == SumOf(d.frameBytes)
    && d.settledBytes == JsonBytes(Arr(d.settled))
  }

  /** Cached sizes are exact, sequence numbers increase within the window, and every limit holds. */
  ghost predicate Sound(c: Config, d: Data) {
    && d.baseSeq <= d.asOfSeq
    && Increasing(d.events, d.baseSeq, d.asOfSeq)
    && SizesExact(c.identity, d)
    && |d.events| <= c.maxEvents && d.eventBytes <= c.maxSuffixBytes
    && Estimate(c.identity, d) <= c.maxSnapshotBytes
  }

  lemma SumSnoc(sizes: seq<nat>, x: nat)
    ensures SumOf(sizes + [x]) == SumOf(sizes) + x
  {
    assert (sizes + [x])[..|sizes|] == sizes;
  }

  lemma LastOfSum(sizes: seq<nat>)
    requires sizes != []
    ensures SumOf(sizes) == SumOf(sizes[..|sizes| - 1]) + sizes[|sizes| - 1]
  {
  }

  lemma WithFrameSound(c: Config, d: Data, frame: Frame, joining: bool, queue: Queue)
    requires Sound(c, d) && frame.seq_ == d.asOfSeq + 1 && (joining ==> d.events != [])
    ensures var d' := WithFrame(d, frame, FrameBytes(c.identity, frame), joining, queue);
            && d'.baseSeq == d.baseSeq && d'.asOfSeq == d.asOfSeq + 1 && d'.settledBytes == d.settledBytes
            && d'.settled == d.settled
            && Increasing(d'.events, d.baseSeq, d'.asOfSeq) && d'.frameBytes == FrameSizes(c.identity, d'.events)
            && d'.eventBytes == SumOf(d'.frameBytes)
            && d'.events == (if joining then d.events[..|d.events| - 1] else d.events) + [frame]
            && d'.eventBytes == d.eventBytes + FrameBytes(c.identity, frame) -
               if joining then FrameBytes(c.identity, d.events[|d.events| - 1]) else 0
  {
    hide *;
    if joining { JoinedFrameSound(c, d, frame, queue); } else { AppendedFrameSound(c, d, frame, queue); }
  }

  lemma JoinedFrameSound(c: Config, d: Data, frame: Frame, queue: Queue)
    requires Sound(c, d) && frame.seq_ == d.asOfSeq + 1 && d.events != []
    ensures var d' := WithFrame(d, frame, FrameBytes(c.identity, frame), true, queue); var last := |d.events| - 1;
            && d'.baseSeq == d.baseSeq && d'.asOfSeq == d.asOfSeq + 1 && d'.settledBytes == d.settledBytes
            && d'.settled == d.settled
            && Increasing(d'.events, d.baseSeq, d'.asOfSeq) && d'.frameBytes == FrameSizes(c.identity, d'.events)
            && d'.eventBytes == SumOf(d'.frameBytes)
            && d'.events == d.events[..last] + [frame]
            && d'.eventBytes == d.eventBytes + FrameBytes(c.identity, frame) - FrameBytes(c.identity, d.events[last])
  {
    hide FrameBytes, Estimate, JsonBytes, SumOf;
    LastOfSum(d.frameBytes);
    SumSnoc(d.frameBytes[..|d.events| - 1], FrameBytes(c.identity, frame));
  }

  lemma AppendedFrameSound(c: Config, d: Data, frame: Frame, queue: Queue)
    requires Sound(c, d) && frame.seq_ == d.asOfSeq + 1
    ensures var d' := WithFrame(d, frame, FrameBytes(c.identity, frame), false, queue);
            && d'.baseSeq == d.baseSeq && d'.asOfSeq == d.asOfSeq + 1 && d'.settledBytes == d.settledBytes
            && d'.settled == d.settled
            && Increasing(d'.events, d.baseSeq, d'.asOfSeq) && d'.frameBytes == FrameSizes(c.identity, d'.events)
            && d'.eventBytes == SumOf(d'.frameBytes)
            && d'.events == d.events + [frame] && d'.eventBytes == d.eventBytes + FrameBytes(c.identity, frame)
  {
    hide FrameBytes, Estimate, JsonBytes, SumOf;
    SumSnoc(d.frameBytes, FrameBytes(c.identity, frame));
  }

  lemma ReduceSound(c: Config, d: Data, input: Input, phase: Option<Phase>)
    requires Sound(c, d) && Reduce(c, d, input, phase).Ok?
    ensures Sound(c, Reduce(c, d, input, phase).value) && Reduce(c, d, input, phase).value.asOfSeq == d.asOfSeq + 1
    ensures Reduce(c, d, input, phase).value.settled == d.settled
    ensures Reduce(c, d, input, phase).value.baseSeq == d.baseSeq
  {
    hide FrameBytes, Estimate, JsonBytes, SumOf, WithFrame, Merge, Without;
    if input.EventInput? {
      var joined := Joined(c, d, input.event);
      var frame := Frame(d.asOfSeq + 1, if joined.Some? then joined.value else input.event);
      WithFrameSound(c, d, frame, joined.Some?, NextQueue(d, input.event));
    }
  }

  lemma {:induction false} ReduceAllSound(c: Config, d: Data, inputs: seq<Input>, phase: Option<Phase>)
    requires Sound(c, d) && ReduceAll(c, d, inputs, phase).Ok?
    ensures Sound(c, ReduceAll(c, d, inputs, phase).value)
    ensures ReduceAll(c, d, inputs, phase).value.asOfSeq == d.asOfSeq + |inputs|
    ensures ReduceAll(c, d, inputs, phase).value.settled == d.settled
    ensures ReduceAll(c, d, inputs, phase).value.baseSeq == d.baseSeq
  {
    hide Reduce, Sound;
    if inputs != [] {
      var front := inputs[..|inputs| - 1];
      ReduceAllSound(c, d, front, phase);
      ReduceSound(c, ReduceAll(c, d, front, phase).value, inputs[|inputs| - 1], phase);
    }
  }

  // ---------------------------------------------------------------- the estimate is the snapshot's size

  lemma {:induction false} FramesTotal(id: Identity, frames: seq<Frame>)
    ensures JsonBytesAll(FramesJson(id, frames)) == SumOf(FrameSizes(id, frames))
  {
    hide FrameBytes, FrameJson;
    if frames == [] {
    } else {
      var n := |frames| - 1;
      FramesTotal(id, frames[..n]);
      JsonPrefix(FramesJson(id, frames), n);
      assert FramesJson(id, frames)[..n] == FramesJson(id, frames[..n]) &&
        FramesJson(id, frames)[..n + 1] == FramesJson(id, frames);
      assert FrameSizes(id, frames)[..n] == FrameSizes(id, frames[..n]);
      SizeOfFrame(id, frames[n]);
    }
  }

  lemma SizeOfFrame(id: Identity, f: Frame)
    ensures FrameBytes(id, f) == JsonBytes(FrameJson(id, f))
  {
  }

  lemma ArrayBytes(items: seq<Json>)
    ensures JsonBytes(Arr(items)) == 2 + Separators(|items|) + JsonBytesAll(items)
  {
  }

  /** The arithmetic estimate is exactly the serialized length of the snapshot, so a snapshot always fits. */
  lemma EstimateIsExact(c: Config, d: Data)
    requires Sound(c, d)
    ensures Estimate(c.identity, d) == JsonBytes(SnapshotJson(c.identity, d)) <= c.maxSnapshotBytes
  {
    hide Estimate, SizesExact, SnapshotJson;
    EstimateIsSize(c.identity, d);
  }

  lemma EstimateIsSize(id: Identity, d: Data)
    requires SizesExact(id, d)
    ensures Estimate(id, d) == JsonBytes(SnapshotJson(id, d))
  {
    hide JsonBytes, FrameBytes, Word, FrameJson, SumOf, Decimal, QueueJson;
    var events, pending := FramesJson(id, d.events), RequestsJson(d.pending);
    var f0 := SnapshotFields(id, d, [], [], []);
    var f1 := SnapshotFields(id, d, d.settled, [], []);
    var f2 := SnapshotFields(id, d, d.settled, events, []);
    var f3 := SnapshotFields(id, d, d.settled, events, pending);
    assert f1 == f0[7 := Field(f0[7].key, Arr(d.settled))];
    assert f2 == f1[8 := Field(f1[8].key, Arr(events))];
    assert f3 == f2[10 := Field(f2[10].key, Arr(pending))];
    ReplaceInObject(f0, 7, Arr(d.settled));
    ReplaceInObject(f1, 8, Arr(events));
    ReplaceInObject(f2, 10, Arr(pending));
    FramesTotal(id, d.events);
    ArrayBytes([]);
    ArrayBytes(d.settled);
    ArrayBytes(events);
    ArrayBytes(pending);
  }

  // ---------------------------------------------------------------- coalescing keeps the meaning

  /** A consumer of the stream: texts accumulate per kind and content index, the latest usage counts, and
      every other event does whatever it does. */
  datatype Replay<S> = Replay(texts: map<(DeltaKind, nat), Text>, usage: Option<Json>, rest: S)

  datatype Consumer<!S> = Consumer(other: (Replay<S>, Event) -> Replay<S>)

  function TextOf<S>(r: Replay<S>, kind: DeltaKind, index: nat): Text {
    if (kind, index) in r.texts then r.texts[(kind, index)] else []
  }

  function Consume<S>(g: Consumer<S>, r: Replay<S>, e: Event): Replay<S> {
    match e
    case Delta(kind, index, delta, usage) =>
      r.(texts := r.texts[(kind, index) := TextOf(r, kind, index) + delta], usage := Some(usage))
    case _ => g.other(r, e)
  }

  function ConsumeAll<S>(g: Consumer<S>, r: Replay<S>, events: seq<Event>): Replay<S> {
    if events == [] then r else Consume(g, ConsumeAll(g, r, events[..|events| - 1]), events[|events| - 1])
  }

  function EventsOf(frames: seq<Frame>): (r: seq<Event>)
    ensures |r| == |frames| && forall i :: 0 <= i < |frames| ==> r[i] == frames[i].event
  {
    seq(|frames|, i requires 0 <= i < |frames| => frames[i].event)
  }

  /** The events of a list of inputs, as they came. */
  function Stream(inputs: seq<Input>): seq<Event> {
    if inputs == [] then []
    else
      var last := inputs[|inputs| - 1];
      Stream(inputs[..|inputs| - 1]) + if last.EventInput? then [last.event] else []
  }

  lemma ConsumeMerged<S>(g: Consumer<S>, c: Config, r: Replay<S>, previous: Event, next: Event)
    requires Merge(c, previous, next).Some?
    ensures Consume(g, r, Merge(c, previous, next).value) == Consume(g, Consume(g, r, previous), next)
  {
    var merged := Merge(c, previous, next).value;
    var key := (next.kind, next.contentIndex);
    var text := TextOf(r, next.kind, next.contentIndex);
    assert text + (previous.delta + next.delta) == text + previous.delta + next.delta;
    assert r.texts[key := text + previous.delta][key := text + previous.delta + next.delta] ==
      r.texts[key := text + merged.delta];
  }

  lemma ConsumeSnoc<S>(g: Consumer<S>, r: Replay<S>, events: seq<Event>, e: Event)
    ensures ConsumeAll(g, r, events + [e]) == Consume(g, ConsumeAll(g, r, events), e)
  {
    assert (events + [e])[..|events|] == events;
  }

  /** One event: the stored suffix then replays like the former one followed by the event itself. */
  lemma ReduceReplays<S>(g: Consumer<S>, c: Config, d: Data, input: Input, phase: Option<Phase>, r: Replay<S>)
    requires Sound(c, d) && Reduce(c, d, input, phase).Ok?
    ensures ConsumeAll(g, r, EventsOf(Reduce(c, d, input, phase).value.events))
         == if input.EventInput? then Consume(g, ConsumeAll(g, r, EventsOf(d.events)), input.event)
           else ConsumeAll(g, r, EventsOf(d.events))
  {
    hide FrameBytes, Estimate, JsonBytes, SumOf, WithFrame, Merge, Consume, ConsumeAll;
    if input.EventInput? {
      var joined := Joined(c, d, input.event);
      var frame := Frame(d.asOfSeq + 1, if joined.Some? then joined.value else input.event);
      var d' := Reduce(c, d, input, phase).value;
      WithFrameSound(c, d, frame, joined.Some?, NextQueue(d, input.event));
      if joined.Some? {
        var n := |d.events| - 1;
        var front := EventsOf(d.events[..n]);
        assert EventsOf(d.events) == front + [d.events[n].event] && EventsOf(d'.events) == front + [joined.value];
        ConsumeSnoc(g, r, front, d.events[n].event);
        ConsumeSnoc(g, r, front, joined.value);
        ConsumeMerged(g, c, ConsumeAll(g, r, front), d.events[n].event, input.event);
      } else {
        assert EventsOf(d'.events) == EventsOf(d.events) + [input.event];
        ConsumeSnoc(g, r, EventsOf(d.events), input.event);
      }
    }
  }

  /** Whatever consumes them, the coalesced suffix replays exactly like the events as they came. */
  lemma {:induction false} CoalescingKeepsMeaning<S>(g: Consumer<S>, c: Config, d: Data, inputs: seq<Input>,
      phase: Option<Phase>, r: Replay<S>)
    requires Sound(c, d) && ReduceAll(c, d, inputs, phase).Ok?
    ensures ConsumeAll(g, r, EventsOf(ReduceAll(c, d, inputs, phase).value.events)) ==
      ConsumeAll(g, ConsumeAll(g, r, EventsOf(d.events)), Stream(inputs))
  {
    hide Reduce, Sound, Consume;
    if inputs != [] {
      var front, last := inputs[..|inputs| - 1], inputs[|inputs| - 1];
      CoalescingKeepsMeaning(g, c, d, front, phase, r);
      ReduceAllSound(c, d, front, phase);
      ReduceReplays(g, c, ReduceAll(c, d, front, phase).value, last, phase, r);
      if last.EventInput? {
        ConsumeSnoc(g, ConsumeAll(g, r, EventsOf(d.events)), Stream(front), last.event);
      } else {
        assert Stream(inputs) == Stream(front);
      }
    }
  }

  // ---------------------------------------------------------------- turn reservations

  /** What one turn may add at most. */
  function TurnItems(c: Config): nat { if c.maxEvents / 2 < 1 then 1 else c.maxEvents / 2 }

  function TurnBytes(c: Config): nat { if c.maxSuffixBytes / 2 < 1 then 1 else c.maxSuffixBytes / 2 }

  /** `hasActiveTurnReservationCapacity`. */
  predicate HasCapacity(c: Config, d: Data, reservations: nat, activeItems: nat, activeBytes: nat,
      reserveActive: bool) {
    && |d.events| + reservations * TurnItems(c) +
       (if reserveActive && activeItems < TurnItems(c) then TurnItems(c) - activeItems else 0) <= c.maxEvents
    && d.eventBytes + reservations * TurnBytes(c) +
       (if reserveActive && activeBytes < TurnBytes(c) then TurnBytes(c) - activeBytes else 0) <= c.maxSuffixBytes
  }

  /** What the inputs are charged, each event by its own frame at its own sequence number. */
  function ChargedItems(inputs: seq<Input>): nat {
    if inputs == [] then 0 else ChargedItems(inputs[..|inputs| - 1]) + if inputs[|inputs| - 1].EventInput? then 1 else 0
  }

  function ChargedBytes(id: Identity, asOfSeq: nat, inputs: seq<Input>): nat {
    if inputs == [] then 0
    else
      var last := inputs[|inputs| - 1];
      ChargedBytes(id, asOfSeq, inputs[..|inputs| - 1])
      + if last.EventInput? then FrameBytes(id, Frame(asOfSeq + |inputs|, last.event)) else 0
  }

  /** Reducing adds at most what is charged; merging only makes it less. */
  lemma {:induction false} GrowsByCharge(c: Config, d: Data, inputs: seq<Input>, phase: Option<Phase>)
    requires Sound(c, d) && ReduceAll(c, d, inputs, phase).Ok?
    ensures var d' := ReduceAll(c, d, inputs, phase).value;
            |d'.events| <= |d.events| + ChargedItems(inputs) &&
              d'.eventBytes <= d.eventBytes + ChargedBytes(c.identity, d.asOfSeq, inputs)
  {
    hide FrameBytes, Estimate, JsonBytes, SumOf, Sound, Reduce;
    if inputs != [] {
      var front, last := inputs[..|inputs| - 1], inputs[|inputs| - 1];
      GrowsByCharge(c, d, front, phase);
      ReduceAllSound(c, d, front, phase);
      GrowsByOne(c, ReduceAll(c, d, front, phase).value, last, phase);
    }
  }

  /** The frame an event ends up in, and what the suffix holds with it. */
  function Placed(c: Config, d: Data, event: Event): Data {
    var joined := Joined(c, d, event);
    var frame := Frame(d.asOfSeq + 1, if joined.Some? then joined.value else event);
    WithFrame(d, frame, FrameBytes(c.identity, frame), joined.Some?, NextQueue(d, event))
  }

  lemma PlacedFits(c: Config, d: Data, event: Event)
    requires Sound(c, d)
    ensures |Placed(c, d, event).events| <= |d.events| + 1
    ensures Placed(c, d, event).eventBytes <= d.eventBytes + FrameBytes(c.identity, Frame(d.asOfSeq + 1, event))
  {
    hide FrameBytes, Estimate, JsonBytes, SumOf, WithFrame, Merge;
    var joined := Joined(c, d, event);
    var frame := Frame(d.asOfSeq + 1, if joined.Some? then joined.value else event);
    WithFrameSound(c, d, frame, joined.Some?, NextQueue(d, event));
    if joined.Some? { MergedFrameFits(c, d.events[|d.events| - 1], event, d.asOfSeq + 1); }
  }

  lemma GrowsByOne(c: Config, d: Data, input: Input, phase: Option<Phase>)
    requires Sound(c, d) && Reduce(c, d, input, phase).Ok?
    ensures var d' := Reduce(c, d, input, phase).value;
            && |d'.events| <= |d.events| + (if input.EventInput? then 1 else 0)
            && d'.eventBytes <= d.eventBytes +
               if input.EventInput? then FrameBytes(c.identity, Frame(d.asOfSeq + 1, input.event)) else 0
  {
    hide FrameBytes, Estimate, JsonBytes, SumOf, WithFrame, Joined, Sound;
    if input.EventInput? { PlacedFits(c, d, input.event); }
  }

  /** With capacity for so many reserved turns besides the active one, inputs charged within those budgets
      never hit the suffix limits. */
  lemma {:induction false} ReservedTurnsFit(c: Config, d: Data, reservations: nat, activeItems: nat,
      activeBytes: nat, inputs: seq<Input>, phase: Option<Phase>)
    requires Sound(c, d) && HasCapacity(c, d, reservations, activeItems, activeBytes, true)
    requires activeItems <= TurnItems(c) && activeBytes <= TurnBytes(c)
    requires activeItems + ChargedItems(inputs) <= (reservations + 1) * TurnItems(c)
    requires activeBytes + ChargedBytes(c.identity, d.asOfSeq, inputs) <= (reservations + 1) * TurnBytes(c)
    ensures ReduceAll(c, d, inputs, phase) != Err(SuffixFull)
  {
    hide FrameBytes, Estimate, JsonBytes, SumOf, Sound, WithFrame, Joined, TurnItems, TurnBytes;
    if inputs != [] {
      var front, last := inputs[..|inputs| - 1], inputs[|inputs| - 1];
      Distributes(reservations, TurnItems(c));
      Distributes(reservations, TurnBytes(c));
      ReservedTurnsFit(c, d, reservations, activeItems, activeBytes, front, phase);
      if ReduceAll(c, d, front, phase).Ok? {
        GrowsByCharge(c, d, front, phase);
        ReduceAllSound(c, d, front, phase);
        if last.EventInput? { PlacedFits(c, ReduceAll(c, d, front, phase).value, last.event); }
      }
    }
  }

  lemma Distributes(a: nat, b: nat)
    ensures (a + 1) * b == a * b + b
  {
  }

  /** A turn granted on an idle projection. */
  lemma GrantedTurnFits(c: Config, d: Data, inputs: seq<Input>, phase: Option<Phase>)
    requires Sound(c, d) && HasCapacity(c, d, 1, 0, 0, false)
    requires ChargedItems(inputs) <= TurnItems(c) && ChargedBytes(c.identity, d.asOfSeq, inputs) <= TurnBytes(c)
    ensures ReduceAll(c, d, inputs, phase) != Err(SuffixFull)
  {
    ReservedTurnsFit(c, d, 0, 0, 0, inputs, phase);
  }

  // ---------------------------------------------------------------- charging a batch ahead

  /** A frame's size depends on its sequence number only through the number of digits. */
  lemma SeqBytes(id: Identity, e: Event, a: nat, b: nat)
    ensures FrameBytes(id, Frame(a, e)) + |Decimal(b)| == FrameBytes(id, Frame(b, e)) + |Decimal(a)|
  {
    hide JsonBytes, Word, Decimal, EventJson;
    var fields := FrameFields(id, a, EventJson(e));
    ReplaceInObject(fields, 5, NumberJson(b));
    assert FrameFields(id, b, EventJson(e)) == fields[5 := Field(fields[5].key, NumberJson(b))];
    NumberBytes(a);
    NumberBytes(b);
  }

  lemma NumberBytes(n: nat)
    ensures JsonBytes(NumberJson(n)) == |Decimal(n)|
  {
  }

  /** A batch charged before it is committed takes the first sequence number for every event. That charge
      is exact for an event if and only if its own number has as many digits. */
  lemma AheadChargeExactIff(id: Identity, e: Event, asOfSeq: nat, position: nat)
    ensures FrameBytes(id, Frame(asOfSeq + 1, e)) == FrameBytes(id, Frame(asOfSeq + 1 + position, e))
       <==> |Decimal(asOfSeq + 1)| == |Decimal(asOfSeq + 1 + position)|
  {
    hide FrameBytes, Decimal;
    SeqBytes(id, e, asOfSeq + 1, asOfSeq + 1 + position);
  }

  /** The second event of a batch after sequence number 8 is charged one byte too little. */
  lemma AheadChargeCanFallShort(id: Identity, e: Event)
    ensures FrameBytes(id, Frame(8 + 1, e)) < FrameBytes(id, Frame(8 + 2, e))
  {
    hide FrameBytes;
    SeqBytes(id, e, 9, 10);
    assert Decimal(9) == [0x39] && Decimal(10) == Decimal(1) + [0x30];
  }

  /** The charge of a batch taken ahead: every event at the first sequence number of the batch. */
  function AheadBytes(id: Identity, asOfSeq: nat, inputs: seq<Input>): nat {
    if inputs == [] then 0
    else
      var last := inputs[|inputs| - 1];
      AheadBytes(id, asOfSeq, inputs[..|inputs| - 1]) +
        if last.EventInput? then FrameBytes(id, Frame(asOfSeq + 1, last.event)) else 0
  }

  /** The digits it leaves out: for every event those that its own number has more than the first one. */
  function Shortfall(asOfSeq: nat, inputs: seq<Input>): nat {
    if inputs == [] then 0
    else
      Shortfall(asOfSeq, inputs[..|inputs| - 1])
      + if inputs[|inputs| - 1].EventInput? then Digits(asOfSeq + |inputs|) - Digits(asOfSeq + 1) else 0
  }

  function Digits(n: nat): (r: nat)
    ensures r == |Decimal(n)|
    ensures forall m :: 0 <= m <= n ==> |Decimal(m)| <= r
  {
    DigitsGrow(n);
    |Decimal(n)|
  }

  lemma {:induction false} DigitsGrow(n: nat)
    ensures forall m :: 0 <= m <= n ==> |Decimal(m)| <= |Decimal(n)|
    decreases n
  {
    if n >= 10 {
      DigitsGrow(n / 10);
      forall m | 0 <= m <= n ensures |Decimal(m)| <= |Decimal(n)| {
        if m >= 10 { assert m / 10 <= n / 10; }
      }
    }
  }

  lemma {:induction false} ChargeIsAheadAndShortfall(id: Identity, asOfSeq: nat, inputs: seq<Input>)
    ensures ChargedBytes(id, asOfSeq, inputs) == AheadBytes(id, asOfSeq, inputs) + Shortfall(asOfSeq, inputs)
  {
    hide FrameBytes, Decimal;
    if inputs != [] {
      var last := inputs[|inputs| - 1];
      ChargeIsAheadAndShortfall(id, asOfSeq, inputs[..|inputs| - 1]);
      if last.EventInput? { SeqBytes(id, last.event, asOfSeq + 1, asOfSeq + |inputs|); }
    }
  }

  /** Charged ahead, inputs stay within the reserved turns as long as the digits left out do, too. */
  lemma AheadChargedTurnsFit(c: Config, d: Data, reservations: nat, activeItems: nat, activeBytes: nat,
      inputs: seq<Input>, phase: Option<Phase>)
    requires Sound(c, d) && HasCapacity(c, d, reservations, activeItems, activeBytes, true)
    requires activeItems <= TurnItems(c) && activeBytes <= TurnBytes(c)
    requires activeItems + ChargedItems(inputs) <= (reservations + 1) * TurnItems(c)
    requires activeBytes + AheadBytes(c.identity, d.asOfSeq, inputs) +
      Shortfall(d.asOfSeq, inputs) <= (reservations + 1) * TurnBytes(c)
    ensures ReduceAll(c, d, inputs, phase) != Err(SuffixFull)
  {
    hide *;
    ChargeIsAheadAndShortfall(c.identity, d.asOfSeq, inputs);
    ReservedTurnsFit(c, d, reservations, activeItems, activeBytes, inputs, phase);
  }

  // ---------------------------------------------------------------- what merging gives back

  /** An event that joins the last frame: that frame and its own make way for the joined one. */
  function MergeSaves(c: Config, d: Data, event: Event): int {
    match Joined(c, d, event)
    case None => 0
    case Some(joined) =>
      FrameBytes(c.identity, d.events[|d.events| - 1]) + FrameBytes(c.identity, Frame(d.asOfSeq + 1, event))
      - FrameBytes(c.identity, Frame(d.asOfSeq + 1, joined))
  }

  /** How many of the inputs merge, and what that saves. */
  function Merged(c: Config, d: Data, inputs: seq<Input>, phase: Option<Phase>): nat {
    if inputs == [] then 0
    else
      var front, last := inputs[..|inputs| - 1], inputs[|inputs| - 1];
      match ReduceAll(c, d, front, phase)
      case Err(_) => 0
      case Ok(before) =>
        Merged(c, d, front, phase) + if last.EventInput? && Joined(c, before, last.event).Some? then 1 else 0
  }

  function MergedBytes(c: Config, d: Data, inputs: seq<Input>, phase: Option<Phase>): int {
    if inputs == [] then 0
    else
      var front, last := inputs[..|inputs| - 1], inputs[|inputs| - 1];
      match ReduceAll(c, d, front, phase)
      case Err(_) => 0
      case Ok(before) =>
        MergedBytes(c, d, front, phase) + if last.EventInput? then MergeSaves(c, before, last.event) else 0
  }

  /** One event takes its charge, less what merging saves. */
  lemma PlacedTakes(c: Config, d: Data, event: Event)
    requires Sound(c, d)
    ensures |Placed(c, d, event).events| == |d.events| + 1 - if Joined(c, d, event).Some? then 1 else 0
    ensures Placed(c, d, event).eventBytes ==
      d.eventBytes + FrameBytes(c.identity, Frame(d.asOfSeq + 1, event)) - MergeSaves(c, d, event)
  {
    hide FrameBytes, Estimate, JsonBytes, SumOf, WithFrame, Merge, Sound;
    var joined := Joined(c, d, event);
    var frame := Frame(d.asOfSeq + 1, if joined.Some? then joined.value else event);
    WithFrameSound(c, d, frame, joined.Some?, NextQueue(d, event));
  }

  lemma ReduceTakes(c: Config, d: Data, input: Input, phase: Option<Phase>)
    requires Sound(c, d) && Reduce(c, d, input, phase).Ok?
    ensures var d' := Reduce(c, d, input, phase).value; input.EventInput? ==>
      |d'.events| == |Placed(c, d, input.event).events| && d'.eventBytes == Placed(c, d, input.event).eventBytes
    ensures var d' := Reduce(c, d, input, phase).value;
      !input.EventInput? ==> |d'.events| == |d.events| && d'.eventBytes == d.eventBytes
  {
    hide FrameBytes, Estimate, JsonBytes, WithFrame, Joined, Sound;
    if input.EventInput? {} else {}
  }

  /** Accepted inputs take exactly what they are charged, less what merging saves. */
  lemma {:induction false} TakesItsCharge(c: Config, d: Data, inputs: seq<Input>, phase: Option<Phase>)
    requires Sound(c, d) && ReduceAll(c, d, inputs, phase).Ok?
    ensures var d' := ReduceAll(c, d, inputs, phase).value;
      && |d'.events| == |d.events| + ChargedItems(inputs) - Merged(c, d, inputs, phase)
      && d'.eventBytes ==
           d.eventBytes + ChargedBytes(c.identity, d.asOfSeq, inputs) - MergedBytes(c, d, inputs, phase)
  {
    hide FrameBytes, Sound, Reduce, Joined, MergeSaves, Placed;
    if inputs != [] {
      var front, last := inputs[..|inputs| - 1], inputs[|inputs| - 1];
      TakesItsCharge(c, d, front, phase);
      ReduceAllSound(c, d, front, phase);
      var before := ReduceAll(c, d, front, phase).value;
      ReduceTakes(c, before, last, phase);
      if last.EventInput? { PlacedTakes(c, before, last.event); }
    }
  }

  /** An event that passes every check but the one for room. */
  predicate Acceptable(c: Config, d: Data, event: Event) {
    var joined := Joined(c, d, event);
    var frame := Frame(d.asOfSeq + 1, if joined.Some? then joined.value else event);
    && d.asOfSeq + 1 <= MAX_SAFE_SEQ && c.guardEvent(event) && c.eventWithinLogicalLimit(frame.event)
    && FrameBytes(c.identity, frame) <= c.maxEventBytes
  }

  /** When a batch charged ahead overflows the suffix: after inputs that were accepted, the next event is
      turned away for lack of room if and only if there are too many frames, those that merged not counted,
      or what was charged, together with the digits left out and less what merging saved, is more than the
      suffix has left. */
  lemma AheadChargedOverflowIff(c: Config, d: Data, front: seq<Input>, event: Event, phase: Option<Phase>)
    requires Sound(c, d) && ReduceAll(c, d, front, phase).Ok?
    requires Acceptable(c, ReduceAll(c, d, front, phase).value, event)
    ensures var inputs := front + [EventInput(event)];
      ReduceAll(c, d, inputs, phase) == Err(SuffixFull) <==>
        || |d.events| + ChargedItems(inputs) - Merged(c, d, inputs, phase) > c.maxEvents
        || d.eventBytes + AheadBytes(c.identity, d.asOfSeq, inputs) + Shortfall(d.asOfSeq, inputs)
             - MergedBytes(c, d, inputs, phase) > c.maxSuffixBytes
  {
    hide *;
    var inputs := front + [EventInput(event)];
    var before := ReduceAll(c, d, front, phase).value;
    LastInput(c, d, front, event, phase);
    LastMerged(c, d, front, event, phase);
    TakesItsCharge(c, d, front, phase);
    ReduceAllSound(c, d, front, phase);
    PlacedTakes(c, before, event);
    OverflowIff(c, before, event, phase);
    ChargeIsAheadAndShortfall(c.identity, d.asOfSeq, inputs);
  }

  lemma LastInput(c: Config, d: Data, front: seq<Input>, event: Event, phase: Option<Phase>)
    requires ReduceAll(c, d, front, phase).Ok?
    ensures var inputs := front + [EventInput(event)]; var before := ReduceAll(c, d, front, phase).value;
      && ReduceAll(c, d, inputs, phase) == Reduce(c, before, EventInput(event), phase)
      && ChargedItems(inputs) == ChargedItems(front) + 1
      && ChargedBytes(c.identity, d.asOfSeq, inputs) == ChargedBytes(c.identity, d.asOfSeq, front)
           + FrameBytes(c.identity, Frame(d.asOfSeq + |front| + 1, event))
  {
    hide FrameBytes, Reduce;
    var inputs := front + [EventInput(event)];
    assert inputs[..|inputs| - 1] == front && inputs[|inputs| - 1] == EventInput(event);
  }

  lemma LastMerged(c: Config, d: Data, front: seq<Input>, event: Event, phase: Option<Phase>)
    requires ReduceAll(c, d, front, phase).Ok?
    ensures var inputs := front + [EventInput(event)]; var before := ReduceAll(c, d, front, phase).value;
      && Merged(c, d, inputs, phase) ==
           Merged(c, d, front, phase) + (if Joined(c, before, event).Some? then 1 else 0)
      && MergedBytes(c, d, inputs, phase) == MergedBytes(c, d, front, phase) + MergeSaves(c, before, event)
  {
    hide FrameBytes, Reduce, ReduceAll, Joined, MergeSaves;
    var inputs := front + [EventInput(event)];
    assert inputs[..|inputs| - 1] == front && inputs[|inputs| - 1] == EventInput(event);
  }

  lemma OverflowIff(c: Config, d: Data, event: Event, phase: Option<Phase>)
    requires Acceptable(c, d, event)
    ensures Reduce(c, d, EventInput(event), phase) == Err(SuffixFull) <==>
      |Placed(c, d, event).events| > c.maxEvents || Placed(c, d, event).eventBytes > c.maxSuffixBytes
  {
    hide FrameBytes, Estimate, JsonBytes, WithFrame, Joined;
  }
}

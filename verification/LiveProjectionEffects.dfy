/** What an input does to the live projection, and when it is accepted, without saying how it is computed. */
module LiveProjectionEffects {
  import opened Prelude
  import opened Selections
  import opened Utf8
  import opened Json
  import opened JsonCounters
  import opened SessionSchema
  import opened LiveProjection

  // ---------------------------------------------------------------- effects

  /** All requests but those with this id. */
  function OtherThan(id: Text): Request -> bool { (r: Request) => r.id != id }

  ghost predicate Drops(before: seq<Request>, id: Text, after: seq<Request>) { Picks(before, OtherThan(id), after) }

  /** The request comes last, and in place of an earlier one with its id. */
  ghost predicate Reopens(before: seq<Request>, r: Request, after: seq<Request>) {
    after != [] && after[|after| - 1] == r && Drops(before, r.id, after[..|after| - 1])
  }

  /** The event continues the last frame: a delta right after a delta of the same kind and place, and the
      guard accepts both as one. */
  predicate Continues(c: Config, d: Data, event: Event) {
    && d.events != []
    && var last := d.events[|d.events| - 1];
       && last.seq_ == d.asOfSeq && last.event.Delta? && event.Delta?
       && last.event.kind == event.kind && last.event.contentIndex == event.contentIndex
       && c.guardEvent(event.(delta := last.event.delta + event.delta))
  }

  ghost predicate Arrives(c: Config, d: Data, event: Event, after: seq<Frame>) {
    if Continues(c, d, event) then
      var last := d.events[|d.events| - 1];
      after == d.events[..|d.events| - 1] + [Frame(d.asOfSeq + 1, event.(delta := last.event.delta + event.delta))]
    else after == d.events + [Frame(d.asOfSeq + 1, event)]
  }

  predicate AwaitsAnswer(r: Request) {
    r.method_ in {Word("select"), Word("confirm"), Word("input"), Word("editor")}
  }

  ghost predicate RequestsAfter(d: Data, input: Input, after: seq<Request>) {
    match input
    case EventInput(_) => after == d.pending
    case RequestInput(r) =>
      if AwaitsAnswer(r) then Reopens(d.pending, r, after) else after == d.pending
    case ClosedInput(id) => Drops(d.pending, id, after)
  }

  /** Everything that changes, and nothing else does. */
  ghost predicate Effect(c: Config, d: Data, input: Input, phase: Option<Phase>, d': Data) {
    && d'.asOfSeq == d.asOfSeq + 1
    && d'.baseSeq == d.baseSeq && d'.settled == d.settled && d'.settledBytes == d.settledBytes
    && d'.phase == (match phase case None => d.phase case Some(p) => p)
    && (if input.EventInput? then Arrives(c, d, input.event, d'.events) else d'.events == d.events)
    && d'.frameBytes == FrameSizes(c.identity, d'.events) && d'.eventBytes == SumOf(d'.frameBytes)
    && d'.queue == (if input.EventInput? && input.event.QueueUpdate? then
                      Queue(input.event.steering, input.event.followUp) else d.queue)
    && RequestsAfter(d, input, d'.pending)
  }

  /** The guards of the input and the limits on what it leads to. */
  predicate Allowed(c: Config, input: Input, d': Data) {
    && d'.asOfSeq <= MAX_SAFE_SEQ
    && JsonBytes(SnapshotJson(c.identity, d')) <= c.maxSnapshotBytes
    && match input
       case EventInput(event) =>
         && c.guardEvent(event) && d'.events != []
         && c.eventWithinLogicalLimit(d'.events[|d'.events| - 1].event)
         && FrameBytes(c.identity, d'.events[|d'.events| - 1]) <= c.maxEventBytes
         && |d'.events| <= c.maxEvents && d'.eventBytes <= c.maxSuffixBytes
         && |d'.queue.steering| <= c.maxQueueItems && |d'.queue.followUp| <= c.maxQueueItems
       case RequestInput(request) =>
         && c.guardRequest(request) && c.requestWithinLogicalLimit(request)
         && |d'.pending| <= c.maxExtensionItems
         && JsonBytes(Arr(RequestsJson(d'.pending))) <= c.maxExtensionBytes
       case ClosedInput(_) => true
  }

  /** The states through which the inputs lead, each allowed. */
  ghost predicate Passes(c: Config, d: Data, inputs: seq<Input>, phase: Option<Phase>, states: seq<Data>) {
    && |states| == |inputs| + 1 && states[0] == d
    && forall i :: 0 <= i < |inputs| ==>
         Effect(c, states[i], inputs[i], phase, states[i + 1]) && Allowed(c, inputs[i], states[i + 1])
  }

  ghost predicate Leads(c: Config, d: Data, inputs: seq<Input>, phase: Option<Phase>, d': Data) {
    exists states :: Passes(c, d, inputs, phase, states) && states[|inputs|] == d'
  }

  // ---------------------------------------------------------------- the reduction has exactly these effects

  lemma {:induction false} WithoutDrops(pending: seq<Request>, id: Text)
    ensures Drops(pending, id, Without(pending, id))
    decreases |pending|
  {
    hide Picks;
    if pending == [] {
      PicksNothing(OtherThan(id));
    } else {
      WithoutDrops(pending[1..], id);
      PicksMore(pending, OtherThan(id), Without(pending[1..], id));
      assert [] + Without(pending[1..], id) == Without(pending[1..], id);
    }
  }

  lemma SameRequests(d: Data, input: Input, a: seq<Request>, b: seq<Request>)
    requires RequestsAfter(d, input, a) && RequestsAfter(d, input, b)
    ensures a == b
  {
    hide Picks, Word, AwaitsAnswer;
    if input.ClosedInput? {
      PicksUnique(d.pending, OtherThan(input.requestId), a, b);
    } else if input.RequestInput? && AwaitsAnswer(input.request) {
      PicksUnique(d.pending, OtherThan(input.request.id), a[..|a| - 1], b[..|b| - 1]);
      assert a == a[..|a| - 1] + [a[|a| - 1]] && b == b[..|b| - 1] + [b[|b| - 1]];
    }
  }

  /** An input has one effect. */
  lemma EffectIsUnique(c: Config, d: Data, input: Input, phase: Option<Phase>, a: Data, b: Data)
    requires Effect(c, d, input, phase, a) && Effect(c, d, input, phase, b)
    ensures a == b
  {
    hide RequestsAfter, Continues, SumOf;
    SameRequests(d, input, a.pending, b.pending);
  }

  /** What the input would lead to, if nothing is in the way. */
  function Candidate(c: Config, d: Data, input: Input): Data {
    match input
    case EventInput(event) => Placed(c, d, event)
    case RequestInput(r) =>
      d.(asOfSeq := d.asOfSeq + 1,
         pending := if Blocking(r.method_) then Without(d.pending, r.id) + [r] else d.pending)
    case ClosedInput(id) => d.(asOfSeq := d.asOfSeq + 1, pending := Without(d.pending, id))
  }

  lemma ClosedEffect(c: Config, d: Data, input: Input, phase: Option<Phase>)
    requires input.ClosedInput? && Sound(c, d)
    ensures Effect(c, d, input, phase, Phased(Candidate(c, d, input), phase))
  {
    hide Picks, Without, Estimate, SumOf, FrameSizes, Increasing, JsonBytes;
    WithoutDrops(d.pending, input.requestId);
  }

  lemma RequestEffect(c: Config, d: Data, input: Input, phase: Option<Phase>)
    requires input.RequestInput? && Sound(c, d)
    ensures Effect(c, d, input, phase, Phased(Candidate(c, d, input), phase))
  {
    hide Picks, Without, Estimate, SumOf, FrameSizes, Increasing, JsonBytes, Word;
    var r := input.request;
    WithoutDrops(d.pending, r.id);
    var after := Without(d.pending, r.id) + [r];
    assert after[..|after| - 1] == Without(d.pending, r.id);
  }

  lemma EventEffect(c: Config, d: Data, input: Input, phase: Option<Phase>)
    requires input.EventInput? && Sound(c, d)
    ensures Effect(c, d, input, phase, Phased(Candidate(c, d, input), phase))
    ensures var after := Candidate(c, d, input).events;
      after != [] && after[|after| - 1] == NextFrame(c, d, input.event)
  {
    hide Estimate, SumOf, FrameSizes, Increasing, JsonBytes, WithFrame, FrameBytes;
    var joined, frame := Joined(c, d, input.event), NextFrame(c, d, input.event);
    WithFrameSound(c, d, frame, joined.Some?, NextQueue(d, input.event));
    FramedOnly(d, frame, FrameBytes(c.identity, frame), joined.Some?, NextQueue(d, input.event));
  }

  function NextFrame(c: Config, d: Data, event: Event): Frame {
    var joined := Joined(c, d, event);
    Frame(d.asOfSeq + 1, if joined.Some? then joined.value else event)
  }

  lemma FramedOnly(d: Data, frame: Frame, bytes: nat, joining: bool, queue: Queue)
    ensures var d' := WithFrame(d, frame, bytes, joining, queue);
      d'.pending == d.pending && d'.queue == queue && d'.phase == d.phase
  {
  }

  lemma CandidateEffect(c: Config, d: Data, input: Input, phase: Option<Phase>)
    requires Sound(c, d)
    ensures Effect(c, d, input, phase, Phased(Candidate(c, d, input), phase))
  {
    hide Effect, Sound, Candidate, Phased;
    match input
    case EventInput(_) => EventEffect(c, d, input, phase);
    case RequestInput(_) => RequestEffect(c, d, input, phase);
    case ClosedInput(_) => ClosedEffect(c, d, input, phase);
  }

  lemma EffectIsExact(c: Config, d: Data, input: Input, phase: Option<Phase>, d': Data)
    requires Sound(c, d) && Effect(c, d, input, phase, d')
    ensures Estimate(c.identity, d') == JsonBytes(SnapshotJson(c.identity, d'))
  {
    hide RequestsAfter, Arrives, FrameSizes, SumOf, JsonBytes, Estimate, SnapshotJson;
    EstimateIsSize(c.identity, d');
  }

  /** The reduction accepts the candidate if and only if it is allowed. */
  lemma ReduceCandidate(c: Config, d: Data, input: Input, phase: Option<Phase>)
    requires Sound(c, d)
    ensures var d' := Phased(Candidate(c, d, input), phase);
      if Allowed(c, input, d') then Reduce(c, d, input, phase) == Ok(d') else Reduce(c, d, input, phase).Err?
  {
    hide Effect, Estimate, SnapshotJson, JsonBytes, Sound, FrameBytes, Without, Word, SumOf, WithFrame, Joined;
    CandidateEffect(c, d, input, phase);
    EffectIsExact(c, d, input, phase, Phased(Candidate(c, d, input), phase));
    if input.EventInput? { EventEffect(c, d, input, phase); }
    EffectCounts(c, d, input, phase, Phased(Candidate(c, d, input), phase));
  }

  lemma EffectCounts(c: Config, d: Data, input: Input, phase: Option<Phase>, d': Data)
    requires Effect(c, d, input, phase, d')
    ensures d'.asOfSeq == d.asOfSeq + 1
  {
  }

  /** An input is accepted if and only if the one thing it can lead to is allowed, and then leads to it. */
  lemma AcceptedIff(c: Config, d: Data, input: Input, phase: Option<Phase>, d': Data)
    requires Sound(c, d)
    ensures Reduce(c, d, input, phase) == Ok(d') <==> Effect(c, d, input, phase, d') && Allowed(c, input, d')
  {
    hide Effect, Allowed, Reduce, Sound, Phased, Candidate;
    CandidateEffect(c, d, input, phase);
    ReduceCandidate(c, d, input, phase);
    if Effect(c, d, input, phase, d') {
      EffectIsUnique(c, d, input, phase, d', Phased(Candidate(c, d, input), phase));
    }
  }

  /** The same for inputs one after the other. */
  lemma {:induction false} AllAcceptedIff(c: Config, d: Data, inputs: seq<Input>, phase: Option<Phase>, d': Data)
    requires Sound(c, d)
    ensures ReduceAll(c, d, inputs, phase) == Ok(d') <==> Leads(c, d, inputs, phase, d')
    decreases |inputs|
  {
    hide Effect, Allowed, Reduce, Sound;
    if inputs == [] {
      assert Passes(c, d, inputs, phase, [d]);
    } else {
      var n := |inputs| - 1;
      var front := ReduceAll(c, d, inputs[..n], phase);
      if front.Ok? {
        AllAcceptedIff(c, d, inputs[..n], phase, front.value);
        ReduceAllSound(c, d, inputs[..n], phase);
        AcceptedIff(c, front.value, inputs[n], phase, d');
      }
      if ReduceAll(c, d, inputs, phase) == Ok(d') { LeadsFurther(c, d, inputs, phase, front.value, d'); }
      if Leads(c, d, inputs, phase, d') {
        var mid := LeadsThrough(c, d, inputs, phase, d');
        AllAcceptedIff(c, d, inputs[..n], phase, mid);
      }
    }
  }

  lemma LeadsFurther(c: Config, d: Data, inputs: seq<Input>, phase: Option<Phase>, mid: Data, d': Data)
    requires inputs != [] && Leads(c, d, inputs[..|inputs| - 1], phase, mid)
    requires var last := inputs[|inputs| - 1]; Effect(c, mid, last, phase, d') && Allowed(c, last, d')
    ensures Leads(c, d, inputs, phase, d')
  {
    hide Effect, Allowed;
    var front := inputs[..|inputs| - 1];
    var states :| Passes(c, d, front, phase, states) && states[|front|] == mid;
    var more := states + [d'];
    forall i | 0 <= i < |inputs|
      ensures Effect(c, more[i], inputs[i], phase, more[i + 1]) && Allowed(c, inputs[i], more[i + 1])
    {
      if i < |front| { assert front[i] == inputs[i] && more[i] == states[i] && more[i + 1] == states[i + 1]; }
    }
    assert Passes(c, d, inputs, phase, more);
  }

  lemma LeadsThrough(c: Config, d: Data, inputs: seq<Input>, phase: Option<Phase>, d': Data) returns (mid: Data)
    requires inputs != [] && Leads(c, d, inputs, phase, d')
    ensures Leads(c, d, inputs[..|inputs| - 1], phase, mid)
    ensures var last := inputs[|inputs| - 1]; Effect(c, mid, last, phase, d') && Allowed(c, last, d')
  {
    hide Effect, Allowed;
    var n := |inputs| - 1;
    var states :| Passes(c, d, inputs, phase, states) && states[|inputs|] == d';
    mid := states[n];
    assert Passes(c, d, inputs[..n], phase, states[..n + 1]);
  }

  // ---------------------------------------------------------------- which requests are pending

  ghost predicate DistinctIds(pending: seq<Request>) {
    forall i, j :: 0 <= i < j < |pending| ==> pending[i].id != pending[j].id
  }

  lemma DropsWhat(before: seq<Request>, id: Text, after: seq<Request>)
    requires Drops(before, id, after)
    ensures forall r :: r in after <==> r in before && r.id != id
    ensures DistinctIds(before) ==> DistinctIds(after)
  {
    var ix :| PicksAt(before, OtherThan(id), ix, after);
    forall r ensures r in after <==> r in before && r.id != id { DropsOne(before, id, after, ix, r); }
  }

  lemma DropsOne(before: seq<Request>, id: Text, after: seq<Request>, ix: seq<nat>, r: Request)
    requires PicksAt(before, OtherThan(id), ix, after)
    ensures r in after <==> r in before && r.id != id
  {
    if r in after {
      var k :| 0 <= k < |after| && after[k] == r;
      assert ix[k] in ix;
    }
    if r in before && r.id != id {
      var i :| 0 <= i < |before| && before[i] == r;
      var k :| 0 <= k < |ix| && ix[k] == i;
      assert after[k] == r;
    }
  }

  /** The input asks anew under this id, or says that it is settled. */
  predicate Touches(input: Input, id: Text) {
    input == ClosedInput(id) || (input.RequestInput? && AwaitsAnswer(input.request) && input.request.id == id)
  }

  predicate Touched(inputs: seq<Input>, from: nat, id: Text) {
    exists i :: from <= i < |inputs| && Touches(inputs[i], id)
  }

  /** The last word under the id of the request is the request itself. */
  predicate AskedLast(inputs: seq<Input>, r: Request) {
    exists i :: 0 <= i < |inputs| && inputs[i] == RequestInput(r) && AwaitsAnswer(r) && !Touched(inputs, i + 1, r.id)
  }

  lemma EffectOnRequests(c: Config, d: Data, input: Input, phase: Option<Phase>, d': Data, r: Request)
    requires Effect(c, d, input, phase, d')
    ensures r in d'.pending <==>
      if Touches(input, r.id) then input == RequestInput(r) && AwaitsAnswer(r) else r in d.pending
    ensures DistinctIds(d.pending) ==> DistinctIds(d'.pending)
  {
    hide AwaitsAnswer, Arrives, FrameSizes, SumOf, Picks;
    match input
    case EventInput(_) =>
    case ClosedInput(id) => DropsWhat(d.pending, id, d'.pending);
    case RequestInput(q) =>
      if AwaitsAnswer(q) {
        var front := d'.pending[..|d'.pending| - 1];
        DropsWhat(d.pending, q.id, front);
        assert d'.pending == front + [q];
      }
  }

  lemma TouchedMore(inputs: seq<Input>, from: nat, id: Text)
    requires inputs != [] && from < |inputs|
    ensures Touched(inputs, from, id) <==>
      Touches(inputs[|inputs| - 1], id) || Touched(inputs[..|inputs| - 1], from, id)
  {
    var n := |inputs| - 1;
    if Touched(inputs, from, id) {
      var i :| from <= i < |inputs| && Touches(inputs[i], id);
      if i < n { assert inputs[..n][i] == inputs[i]; }
    }
    if Touched(inputs[..n], from, id) {
      var i :| from <= i < n && Touches(inputs[..n][i], id);
      assert inputs[i] == inputs[..n][i];
    }
  }

  lemma AskedMore(inputs: seq<Input>, r: Request)
    requires inputs != []
    ensures var last := inputs[|inputs| - 1];
      AskedLast(inputs, r) <==>
        if Touches(last, r.id) then last == RequestInput(r) && AwaitsAnswer(r)
        else AskedLast(inputs[..|inputs| - 1], r)
  {
    hide AwaitsAnswer, Touched, Touches;
    var n := |inputs| - 1;
    NothingAfter(inputs, r.id);
    forall i | 0 <= i < n
      ensures Touched(inputs, i + 1, r.id) <==> Touches(inputs[n], r.id) || Touched(inputs[..n], i + 1, r.id)
      ensures inputs[..n][i] == inputs[i]
    {
      TouchedMore(inputs, i + 1, r.id);
    }
    TouchesItself(r);
  }

  lemma NothingAfter(inputs: seq<Input>, id: Text)
    ensures !Touched(inputs, |inputs|, id)
  {
  }

  lemma TouchesItself(r: Request)
    ensures AwaitsAnswer(r) ==> Touches(RequestInput(r), r.id)
  {
  }

  /** After any accepted inputs the pending requests are exactly those that were asked and since then neither
      closed nor asked again, and those pending before that no input touched; no two have one id. */
  lemma {:induction false} PendingIffOpen(c: Config, d: Data, inputs: seq<Input>, phase: Option<Phase>,
      states: seq<Data>, r: Request)
    requires Passes(c, d, inputs, phase, states)
    ensures r in states[|inputs|].pending <==>
      AskedLast(inputs, r) || (r in d.pending && !Touched(inputs, 0, r.id))
    ensures DistinctIds(d.pending) ==> DistinctIds(states[|inputs|].pending)
    decreases |inputs|
  {
    hide Effect, Allowed, AskedLast, Touched, DistinctIds, AwaitsAnswer;
    if inputs == [] {
      NothingAsked(r);
    } else {
      var n := |inputs| - 1;
      FrontPasses(c, d, inputs, phase, states);
      PendingIffOpen(c, d, inputs[..n], phase, states[..n + 1], r);
      EffectOnRequests(c, states[n], inputs[n], phase, states[n + 1], r);
      AskedMore(inputs, r);
      TouchedMore(inputs, 0, r.id);
    }
  }

  lemma FrontPasses(c: Config, d: Data, inputs: seq<Input>, phase: Option<Phase>, states: seq<Data>)
    requires Passes(c, d, inputs, phase, states) && inputs != []
    ensures Passes(c, d, inputs[..|inputs| - 1], phase, states[..|inputs|])
  {
    hide Effect, Allowed;
  }

  lemma NothingAsked(r: Request)
    ensures !AskedLast([], r) && !Touched([], 0, r.id)
  {
  }

  lemma LeadsDistinct(c: Config, d: Data, inputs: seq<Input>, phase: Option<Phase>, d': Data)
    requires Leads(c, d, inputs, phase, d') && DistinctIds(d.pending)
    ensures DistinctIds(d'.pending)
  {
    hide Effect, Allowed, DistinctIds, Touched, AskedLast;
    var states :| Passes(c, d, inputs, phase, states) && states[|inputs|] == d';
    PendingIffOpen(c, d, inputs, phase, states, Request([], [], Null));
  }
}

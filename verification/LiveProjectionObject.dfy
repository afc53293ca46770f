/** The live projection as an object: optimistic prepare and commit tokens over a revision counter. */
module LiveProjectionObject {
  import opened Prelude
  import opened Utf8
  import opened Json
  import opened JsonCounters
  import opened SessionSchema
  import opened ContentProducts
  import opened LiveProjection
  import opened LiveProjectionEffects

  type TokenId = nat

  /** A prepared batch; `base`, `inputs` and `phase` are what it was prepared from. */
  datatype PreparedBatch = PreparedBatch(
    revision: nat, firstSeq: nat, lastSeq: nat, count: nat, candidate: Data, base: Data, inputs: seq<Input>,
      phase: Option<Phase>)

  datatype PreparedCompaction = PreparedCompaction(revision: nat, settled: seq<Json>, settledBytes: nat, baseSeq: nat,
    base: Data)

  /** Committing a batch is committing its inputs one by one, and fails where that fails first. */
  lemma {:induction false} BatchIsSingles(c: Config, d: Data, first: seq<Input>, rest: seq<Input>, phase: Option<Phase>)
    ensures ReduceAll(c, d, first + rest, phase)
         == match ReduceAll(c, d, first, phase) case Ok(mid) => ReduceAll(c, mid, rest, phase) case Err(e) => Err(e)
  {
    hide Reduce;
    if rest == [] {
      assert first + rest == first;
    } else {
      var n := |rest| - 1;
      BatchIsSingles(c, d, first, rest[..n], phase);
      assert (first + rest)[..|first + rest| - 1] == first + rest[..n];
    }
  }

  predicate SettledFits(c: Config, messages: seq<Json>) {
    && (forall i :: 0 <= i < |messages| ==> c.guardMessage(messages[i]))
    && |messages| <= c.maxSettledItems && JsonBytes(Arr(messages)) <= c.maxSettledBytes
  }

  function Compacted(d: Data, settled: seq<Json>): Data {
    d.(settled := settled, settledBytes := JsonBytes(Arr(settled)), baseSeq := d.asOfSeq, events := [],
       frameBytes := [], eventBytes := 0)
  }

  lemma CompactedSound(c: Config, d: Data, settled: seq<Json>)
    requires Sound(c, d) && Estimate(c.identity, Compacted(d, settled)) <= c.maxSnapshotBytes
    ensures Sound(c, Compacted(d, settled))
  {
    hide Estimate, JsonBytes, FrameBytes;
  }

  /** What `assertSnapshotFits` looks at when it is given the phase "idle". */
  function IdleCompacted(d: Data, settled: seq<Json>): Data { Compacted(d, settled).(phase := Idle) }

  lemma IdleIsIdle(d: Data, settled: seq<Json>)
    requires ShownPhase(d) == Idle
    ensures IdleCompacted(d, settled) == Compacted(d, settled)
  {
  }

  class SessionLiveProjection {
    const c: Config
    var data: Data
    var revision: nat
    var prepared: map<TokenId, PreparedBatch>
    var compactionTokens: map<TokenId, (nat, nat)>
    var preparedCompactions: map<TokenId, PreparedCompaction>
    var nextToken: TokenId
    /** The state at every revision so far, and the revisions some commit was based on. */
    ghost var history: seq<Data>
    ghost var spent: set<nat>

    /** Equal revision implies equal state, for every token still around. */
    ghost predicate Valid()
      reads this
    {
      && Sound(c, data) && DistinctIds(data.pending)
      && |history| == revision + 1 && history[revision] == data
      && (forall t :: t in prepared ==> BatchOk(prepared[t]))
      && (forall t :: t in preparedCompactions ==> CompactionOk(preparedCompactions[t]))
      && (forall t :: t in compactionTokens ==>
           compactionTokens[t].0 <= revision && compactionTokens[t].1 == history[compactionTokens[t].0].asOfSeq)
      && (forall r :: r in spent ==> r < revision)
    }

    ghost predicate BatchOk(p: PreparedBatch)
      reads this
    {
      && p.revision < |history| && history[p.revision] == p.base
      && p.inputs != [] && p.count == |p.inputs| && p.firstSeq == p.base.asOfSeq + 1 && p.lastSeq == p.candidate.asOfSeq
      && ReduceAll(c, p.base, p.inputs, p.phase) == Ok(p.candidate)
    }

    ghost predicate CompactionOk(p: PreparedCompaction)
      reads this
    {
      && p.revision < |history| && history[p.revision] == p.base
      && ShownPhase(p.base) == Idle && p.baseSeq == p.base.asOfSeq && p.settledBytes == JsonBytes(Arr(p.settled))
      && SettledFits(c, p.settled) && Estimate(c.identity, Compacted(p.base, p.settled)) <= c.maxSnapshotBytes
    }

    constructor (c: Config, settled: seq<Json>, baseSeq: nat, phase: Phase)
      requires SettledFits(c, settled)
      requires Estimate(c.identity, Data(baseSeq, baseSeq, settled, JsonBytes(Arr(settled)), [], [], 0, Queue([], []),
        [], phase)) <= c.maxSnapshotBytes
      ensures Valid() && this.c == c && revision == 0 && prepared == map[] && preparedCompactions == map[]
      ensures data == Data(baseSeq, baseSeq, settled, JsonBytes(Arr(settled)), [], [], 0, Queue([], []), [], phase)
    {
      this.c := c;
      data := Data(baseSeq, baseSeq, settled, JsonBytes(Arr(settled)), [], [], 0, Queue([], []), [], phase);
      revision, prepared, compactionTokens, preparedCompactions, nextToken := 0, map[], map[], map[], 0;
      history, spent := [Data(baseSeq, baseSeq, settled, JsonBytes(Arr(settled)), [], [], 0, Queue([], []), [],
        phase)], {};
    }

    /** The reduction loop of a batch. */
    method ReduceBatch(inputs: seq<Input>, phase: Option<Phase>) returns (r: Result<Data, Error>)
      ensures r == ReduceAll(c, data, inputs, phase)
    {
      hide Reduce;
      var candidate := data;
      var i := 0;
      while i < |inputs|
        invariant 0 <= i <= |inputs| && ReduceAll(c, data, inputs[..i], phase) == Ok(candidate)
      {
        assert inputs[..i + 1][..i] == inputs[..i];
        var next := Reduce(c, candidate, inputs[i], phase);
        if next.Err? {
          assert inputs == inputs[..i + 1] + inputs[i + 1..];
          BatchIsSingles(c, data, inputs[..i + 1], inputs[i + 1..], phase);
          return Err(next.error);
        }
        candidate := next.value;
        i := i + 1;
      }
      assert inputs[..|inputs|] == inputs;
      return Ok(candidate);
    }

    /** A failing input leaves no token and no trace. */
    method PrepareBatch(id: Identity, inputs: seq<Input>, phase: Option<Phase>) returns (r: Option<TokenId>)
      requires Valid()
      modifies this`prepared, this`nextToken
      ensures Valid()
      ensures r.Some? <==>
        id == c.identity && inputs != [] && data.asOfSeq + |inputs| <= MAX_SAFE_SEQ
        && exists d' :: Leads(c, data, inputs, phase, d')
      ensures r.None? ==> prepared == old(prepared)
      ensures r.Some? ==>
                && r.value in prepared && prepared[r.value].revision == revision && prepared[r.value].base == data
                && prepared[r.value].inputs == inputs && prepared[r.value].phase == phase
    {
      hide Sound, ReduceAll, Leads, DistinctIds;
      forall d' ensures ReduceAll(c, data, inputs, phase) == Ok(d') <==> Leads(c, data, inputs, phase, d') {
        AllAcceptedIff(c, data, inputs, phase, d');
      }
      if id != c.identity || inputs == [] || data.asOfSeq + |inputs| > MAX_SAFE_SEQ { return None; }
      var reduced := ReduceBatch(inputs, phase);
      if reduced.Err? { return None; }
      var token := PreparedBatch(revision, data.asOfSeq + 1, reduced.value.asOfSeq, |inputs|, reduced.value, data,
        inputs, phase);
      r := Some(nextToken);
      prepared := prepared[nextToken := token];
      nextToken := nextToken + 1;
      assert forall t :: t in prepared ==> BatchOk(prepared[t]);
    }

    /** A commit applies exactly the prepared inputs to the state it finds, or does nothing. It succeeds if
        and only if the token is still there and nothing was committed since it was prepared. */
    method CommitPreparedBatch(t: TokenId) returns (r: Option<nat>)
      requires Valid()
      modifies this
      ensures Valid()
      ensures r.Some? <==> t in old(prepared) && old(prepared[t]).revision == old(revision)
      ensures r.Some? ==>
                && Leads(c, old(data), old(prepared[t]).inputs, old(prepared[t]).phase, data)
                && r.value == data.asOfSeq == old(data.asOfSeq) + |old(prepared[t]).inputs|
                && revision == old(revision) + 1 && old(revision) !in old(spent)
                && spent == old(spent) + {old(revision)}
      ensures r.None? ==> data == old(data) && revision == old(revision) && spent == old(spent)
      ensures prepared == old(prepared) - {t}
    {
      hide Sound, ReduceAll, Leads, DistinctIds, Estimate, SettledFits, JsonBytes, Compacted, ShownPhase;
      if t !in prepared { return None; }
      var p := prepared[t];
      assert BatchOk(p);
      ReducedSound(p);
      prepared := prepared - {t};
      if p.revision != revision || p.firstSeq != data.asOfSeq + 1 || p.lastSeq != p.candidate.asOfSeq ||
        p.count != p.lastSeq - p.firstSeq + 1 {
        return None;
      }
      spent := spent + {revision};
      Advance(p.candidate);
      return Some(data.asOfSeq);
    }

    lemma ReducedSound(p: PreparedBatch)
      requires Valid() && BatchOk(p)
      ensures p.revision == revision ==>
        && Sound(c, p.candidate) && p.candidate.asOfSeq == data.asOfSeq + |p.inputs|
        && DistinctIds(p.candidate.pending) && Leads(c, data, p.inputs, p.phase, p.candidate)
    {
      hide Sound, DistinctIds;
      if p.revision == revision {
        ReduceAllSound(c, data, p.inputs, p.phase);
        AllAcceptedIff(c, data, p.inputs, p.phase, p.candidate);
        LeadsDistinct(c, data, p.inputs, p.phase, p.candidate);
      }
    }

    /** Every change of state starts a new revision. */
    method Advance(next: Data)
      requires Valid() || (|history| == revision + 1 && history[revision] == data)
      requires Sound(c, next) && DistinctIds(next.pending) && |history| == revision + 1
      requires (forall t :: t in prepared ==> BatchOk(prepared[t]))
      requires (forall t :: t in preparedCompactions ==> CompactionOk(preparedCompactions[t]))
      requires forall t :: t in compactionTokens ==>
        compactionTokens[t].0 <= revision && compactionTokens[t].1 == history[compactionTokens[t].0].asOfSeq
      requires forall r :: r in spent ==> r <= revision
      modifies this`data, this`revision, this`history
      ensures Valid() && data == next && revision == old(revision) + 1
    {
      hide Sound, ReduceAll, Estimate, SettledFits, DistinctIds;
      data := next;
      revision := revision + 1;
      history := history + [next];
    }

    method SetRuntimePhase(id: Identity, phase: Phase) returns (ok: bool)
      requires Valid()
      modifies this`data, this`revision, this`history
      ensures Valid()
      ensures (ok <==> id == c.identity && Estimate(c.identity, old(data).(phase := phase)) <= c.maxSnapshotBytes)
      ensures data == (if ok then old(data).(phase := phase) else old(data))
      ensures revision == old(revision) + if ok then 1 else 0
    {
      hide Estimate;
      if id != c.identity { return false; }
      var next := data.(phase := phase);
      if Estimate(c.identity, next) > c.maxSnapshotBytes { return false; }
      Advance(next);
      return true;
    }

    method BeginIdleBaseCompaction() returns (r: Option<TokenId>)
      requires Valid()
      modifies this`compactionTokens, this`nextToken
      ensures Valid() && (r.Some? <==> data.phase == Idle && data.pending == [])
      ensures r.Some? ==> r.value in compactionTokens && compactionTokens[r.value] == (revision, data.asOfSeq)
    {
      hide Sound, ReduceAll, Estimate;
      if ShownPhase(data) != Idle { return None; }
      r := Some(nextToken);
      compactionTokens := compactionTokens[nextToken := (revision, data.asOfSeq)];
      nextToken := nextToken + 1;
    }

    /** The first token is used up whatever happens. */
    method PrepareIdleBaseCompaction(t: TokenId, settled: seq<Json>) returns (r: Option<TokenId>)
      requires Valid()
      modifies this`compactionTokens, this`preparedCompactions, this`nextToken
      ensures Valid() && compactionTokens == old(compactionTokens) - {t}
      ensures r.Some? <==>
        && t in old(compactionTokens) && old(compactionTokens[t]).0 == revision
        && data.phase == Idle && data.pending == []
        && SettledFits(c, settled)
        && Estimate(c.identity, Compacted(data, settled)) <= c.maxSnapshotBytes
      ensures r.Some? ==>
        r.value in preparedCompactions && preparedCompactions[r.value].revision == revision &&
          preparedCompactions[r.value].settled == settled
      ensures r.None? ==> preparedCompactions == old(preparedCompactions)
    {
      hide Sound, ReduceAll, Estimate, SettledFits, JsonBytes;
      var known := t in compactionTokens;
      var captured := if known then compactionTokens[t] else (0, 0);
      compactionTokens := compactionTokens - {t};
      if !known || captured.0 != revision || captured.1 != data.asOfSeq || ShownPhase(data) != Idle { return None; }
      IdleIsIdle(data, settled);
      if !SettledFits(c, settled) || Estimate(c.identity, IdleCompacted(data, settled)) > c.maxSnapshotBytes {
        return None;
      }
      r := Some(nextToken);
      preparedCompactions := preparedCompactions[nextToken :=
        PreparedCompaction(revision, settled, JsonBytes(Arr(settled)), data.asOfSeq, data)];
      nextToken := nextToken + 1;
    }

    /** Replaces the base and empties the suffix, if nothing was committed since. */
    method CommitPreparedIdleBaseCompaction(t: TokenId) returns (ok: bool)
      requires Valid()
      modifies this
      ensures Valid()
      ensures (ok <==> t in old(preparedCompactions) && old(preparedCompactions[t]).revision == old(revision))
      ensures !ok ==> data == old(data)
      ensures ok ==>
        && data.settled == old(preparedCompactions[t]).settled && data.settledBytes == JsonBytes(Arr(data.settled))
        && data.events == [] && data.frameBytes == [] && data.eventBytes == 0
        && data.baseSeq == data.asOfSeq == old(data).asOfSeq
        && data.queue == old(data).queue && data.pending == old(data).pending && data.phase == old(data).phase
      ensures revision == old(revision) + if ok then 1 else 0
      ensures ok ==> old(revision) !in old(spent) && spent == old(spent) + {old(revision)}
    {
      hide Sound, ReduceAll, Estimate, SettledFits, JsonBytes;
      if t !in preparedCompactions { return false; }
      var p := preparedCompactions[t];
      assert CompactionOk(p);
      if p.revision != revision || p.baseSeq != data.asOfSeq {
        preparedCompactions := preparedCompactions - {t};
        return false;
      }
      preparedCompactions := preparedCompactions - {t};
      spent := spent + {revision};
      CompactedSound(c, data, p.settled);
      Advance(data.(settled := p.settled, settledBytes := p.settledBytes, baseSeq := p.baseSeq,
                    events := [], frameBytes := [], eventBytes := 0));
      return true;
    }

    /** Every snapshot fits its wire limit and passes the decoder's sequence check. */
    method Snapshot() returns (json: Json)
      requires Valid()
      ensures json == SnapshotJson(c.identity, data) && JsonBytes(json) <= c.maxSnapshotBytes
      ensures json.Obj? && |json.fields| == 12 && json.fields[6] ==
        FieldOf("runtimePhase", Str(if data.pending == [] then PhaseWord(data.phase) else Word("waiting_ui")))
      ensures Increasing(data.events, data.baseSeq, data.asOfSeq)
    {
      EstimateIsExact(c, data);
      json := SnapshotJson(c.identity, data);
    }
  }
}

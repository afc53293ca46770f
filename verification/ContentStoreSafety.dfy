/** The invariant holds in every run of the content store, and what follows from it. */
module ContentStoreSafety {
  import opened Prelude
  import opened ContentRefs
  import opened ContentStore
  import opened ContentStoreInvariant

  // ---------------------------------------------------------------- gluing the pieces of the invariant

  lemma InvParts(s: Store)
    requires Inv(s)
    ensures ShapeInv(s) && LockInv(s) && EntriesInv(s) && TokensInv(s) && OpsInv(s) && DeleterInv(s)
    ensures CountsInv(s) && QuotaInv(s) && RegistryWf(s)
  {
    hide Sum;
    forall k | k in s.entries ensures s.entries[k] in s.heap && ContentKey(s.heap[s.entries[k]].ref) == k {
      assert EntryOk(s, k);
    }
  }

  lemma Glue(s: Store)
    requires ShapeInv(s) && CountsInv(s) && QuotaInv(s)
    ensures Inv(s)
  {
    hide Sum;
  }

  lemma OpFact(s: Store, o: OpId)
    requires Inv(s)
    ensures OpFine(s, o)
  {
    hide Sum;
    if o in s.ops && Inside(s.ops[o]).Some? { assert InsideOf(s, s.ops[o]) == Inside(s.ops[o]); }
  }

  lemma EntryFact(s: Store, k: Key)
    requires Inv(s)
    ensures k in s.entries ==> EntryOk(s, k)
  {
    hide Sum;
  }

  lemma TokenFact(s: Store, t: TokenId)
    requires Inv(s)
    ensures t in s.tokens ==> TokenOk(s, s.tokens[t]) && s.tokens[t].entry in s.heap && CountOk(s, s.tokens[t].entry)
  {
    hide Sum;
    if t in s.tokens { assert TokenOk(s, s.tokens[t]); }
  }

  /** What an action of `o` owes: it stays in its frame, and the invariant holds afterwards. */
  ghost predicate Good(s: Store, s': Store, o: OpId) { Inv(s') && Steps(s, s', o) }

  lemma StepsOf(s: Store, s': Store, o: OpId)
    requires Framed(s, s', o) && Settled(s, s', o)
    ensures Steps(s, s', o)
  {
    hide Sum;
  }

  lemma IsGood(s: Store, s': Store, o: OpId)
    requires Inv(s') && Steps(s, s', o)
    ensures Good(s, s', o)
  {
    hide Sum;
  }

  lemma GoodMeans(s: Store, s': Store, o: OpId)
    requires Good(s, s', o)
    ensures Inv(s') && Steps(s, s', o)
  {
    hide Sum;
  }

  /** Shape, counters and quota are argued separately. */
  lemma Compose(s: Store, s': Store, o: OpId, t: TokenId)
    requires Inv(s) && Steps(s, s', o) && Counts(s, s', o, t) && QuotaInv(s')
    ensures Good(s, s', o)
  {
    hide *;
    InvParts(s);
    ShapeKept(s, s', o);
    CountsKept(s, s', o, t);
    Glue(s');
    IsGood(s, s', o);
  }

  ghost predicate SameEntries(s: Store, s': Store) {
    && s'.limits == s.limits && s'.entries == s.entries && s'.tombstones == s.tombstones
    && s'.heap.Keys == s.heap.Keys && (forall e :: e in s.heap ==> s'.heap[e].ref == s.heap[e].ref)
  }

  lemma QuotaUntouched(s: Store, s': Store, o: OpId)
    requires QuotaInv(s) && RegistryWf(s) && SameEntries(s, s') && SameQuota(s, s', o)
    ensures QuotaInv(s')
  {
    hide Sum;
    assert SameSizes(s, s');
    QuotaSame(s, s', o);
  }

  /** Counters and handles are untouched, and no pin begins or ends. */
  ghost predicate Uncounted(s: Store, s': Store, o: OpId) {
    && (o in s.ops ==> !s.ops[o].Pinning?) && o in s'.ops && !s'.ops[o].Pinning? && s'.ops == s.ops[o := s'.ops[o]]
    && s'.tokens == s.tokens && s'.heap.Keys == s.heap.Keys
    && (forall e :: e in s.heap ==> s'.heap[e] == s.heap[e].(published := s'.heap[e].published))
  }

  lemma UncountedCounts(s: Store, s': Store, o: OpId)
    requires Uncounted(s, s', o)
    ensures Counts(s, s', o, 0)
  {
    hide Sum;
  }

  lemma LocalUncounted(s: Store, s': Store, o: OpId)
    requires Quiet(s, s', o) && s'.heap == s.heap && s'.tokens == s.tokens
    ensures Uncounted(s, s', o)
  {
    hide Sum;
  }

  lemma LocalParts(s: Store, s': Store, o: OpId)
    requires Local(s, s', o)
    ensures s'.heap == s.heap && s'.tokens == s.tokens && SameEntries(s, s')
  {
    hide Sum;
  }

  lemma QuietQuota(s: Store, s': Store, o: OpId)
    requires Quiet(s, s', o)
    ensures SameQuota(s, s', o)
  {
    hide Sum;
  }

  lemma LocalKept(s: Store, s': Store, o: OpId)
    requires Inv(s) && Local(s, s', o) && Quiet(s, s', o)
    ensures Good(s, s', o)
  {
    hide *;
    InvParts(s);
    LocalParts(s, s', o);
    LocalSteps(s, s', o);
    LocalUncounted(s, s', o);
    UncountedCounts(s, s', o);
    QuietQuota(s, s', o);
    QuotaUntouched(s, s', o);
    Compose(s, s', o, 0);
  }

  lemma DiskLocalParts(s: Store, s': Store, o: OpId)
    requires DiskLocal(s, s', o)
    ensures s'.heap == s.heap && s'.tokens == s.tokens && SameEntries(s, s')
  {
    hide Sum;
  }

  lemma DiskLocalKept(s: Store, s': Store, o: OpId)
    requires Inv(s) && DiskLocal(s, s', o) && Quiet(s, s', o)
    ensures Good(s, s', o)
  {
    hide *;
    InvParts(s);
    DiskLocalParts(s, s', o);
    DiskLocalSteps(s, s', o);
    LocalUncounted(s, s', o);
    UncountedCounts(s, s', o);
    QuietQuota(s, s', o);
    QuotaUntouched(s, s', o);
    Compose(s, s', o, 0);
  }

  /** The handle that a step of `o` is about, if any. */
  function TokenOf(s: Store, o: OpId): TokenId {
    if o !in s.ops then 0
    else
      match s.ops[o]
      case ReleaseQueued(t) => t
      case Deleting(ByRelease(t), _, _, _) => t
      case DeleteFailed(ByRelease(t), _, _) => t
      case _ => 0
  }

  /** No handle moves, or one that was being removed is released. */
  ghost predicate TokenEnds(s: Store, s': Store, t: TokenId) {
    || s'.tokens == s.tokens
    || (t in s.tokens && s.tokens[t].phase.Removing?
        && s'.tokens == s.tokens[t := s.tokens[t].(phase := Released)])
  }

  lemma EndingCounts(s: Store, s': Store, o: OpId, t: TokenId)
    requires Ending(s, s', o) && Quiet(s, s', o) && TokenEnds(s, s', t)
    ensures Counts(s, s', o, t) && SameEntries(s, s') && SameQuota(s, s', o)
  {
    hide Sum;
  }

  lemma EndingKept(s: Store, s': Store, o: OpId, t: TokenId)
    requires Inv(s) && Ending(s, s', o) && Quiet(s, s', o) && TokenEnds(s, s', t)
    ensures Good(s, s', o)
  {
    hide *;
    InvParts(s);
    EndingSteps(s, s', o);
    EndingCounts(s, s', o, t);
    QuotaUntouched(s, s', o);
    Compose(s, s', o, t);
  }

  lemma CountingParts(s: Store, s': Store, o: OpId)
    requires Counting(s, s', o)
    ensures SameEntries(s, s')
  {
    hide Sum;
  }

  /** Actions on counters and handles only. */
  lemma CountingKept(s: Store, s': Store, o: OpId, t: TokenId)
    requires Inv(s) && Counting(s, s', o) && Counts(s, s', o, t) && SameQuota(s, s', o)
    ensures Good(s, s', o)
  {
    hide *;
    InvParts(s);
    CountingSteps(s, s', o);
    CountingParts(s, s', o);
    QuotaUntouched(s, s', o);
    Compose(s, s', o, t);
  }

  /** Actions argued by frame and obligations that count nothing. */
  lemma UncountedKept(s: Store, s': Store, o: OpId)
    requires Inv(s) && Framed(s, s', o) && Settled(s, s', o) && Uncounted(s, s', o) && SameEntries(s, s')
    requires SameQuota(s, s', o)
    ensures Good(s, s', o)
  {
    hide *;
    StepsOf(s, s', o);
    InvParts(s);
    UncountedCounts(s, s', o);
    QuotaUntouched(s, s', o);
    Compose(s, s', o, 0);
  }

  // ---------------------------------------------------------------- staging

  lemma ReservationBegins(s: Store, s': Store, o: OpId)
    requires o !in s.ops && o in s'.ops && s'.ops == s.ops[o := s'.ops[o]] && Reserves(s'.ops[o])
    ensures Sum(Reservations(s')) == Sum(Reservations(s)) + s'.ops[o].reserved
    ensures |Reservations(s')| == |Reservations(s)| + 1
  {
    hide Sum;
    SumInsert(Reservations(s), o, s'.ops[o].reserved);
    assert Reservations(s') == Reservations(s)[o := s'.ops[o].reserved];
  }

  lemma StageCallQuota(s: Store, o: OpId, ns: Namespace, expected: Option<nat>)
    requires QuotaInv(s) && RegistryWf(s) && CanStage(s, o, ns, expected)
    ensures QuotaInv(StageCall(s, o, ns, expected))
  {
    hide Reservations, EntrySizes, RegistryWf;
    var s' := StageCall(s, o, ns, expected);
    assert SameSizes(s, s');
    assert s'.ops[o] == Staging(ns, expected, s'.ops[o].reserved);
    SizesSame(s, s');
    ReservationBegins(s, s', o);
  }

  lemma StageCallUncounted(s: Store, o: OpId, ns: Namespace, expected: Option<nat>)
    requires CanStage(s, o, ns, expected)
    ensures Uncounted(s, StageCall(s, o, ns, expected), o)
  {
    hide Sum;
  }

  lemma StageVerifiedQuota(s: Store, o: OpId, t: TokenId)
    requires QuotaInv(s) && RegistryWf(s) && CanStageVerified(s, o, t) && OpFine(s, o)
    ensures QuotaInv(StageVerified(s, o, true, t))
  {
    hide Sum, StageVerified, EntrySizes, Reservations, CandidatesOk, OnDisk;
    var s' := StageVerified(s, o, true, t);
    StageVerifiedShape(s, o, t);
    StageVerifiedBytes(s, o, t);
    SizesSame(s, s');
    ReservationEnds(s, s', o);
  }

  lemma StageVerifiedBytes(s: Store, o: OpId, t: TokenId)
    requires CanStageVerified(s, o, t)
    ensures var s' := StageVerified(s, o, true, t);
      && s'.bytes == s.bytes && s'.items == s.items
      && s'.reservedBytes == s.reservedBytes - s.ops[o].reserved && s'.reservedItems == s.reservedItems - 1
  {
    hide Queue;
  }

  lemma StageVerifiedCounts(s: Store, o: OpId, t: TokenId)
    requires CanStageVerified(s, o, t) && OpFine(s, o)
    ensures Counts(s, StageVerified(s, o, true, t), o, t)
  {
    hide Sum;
  }

  lemma EntryBegins(s: Store, s': Store, k: Key, e: EntryId, ref: Ref)
    requires RegistryWf(s) && k !in s.entries && e !in s.heap
    requires e in s'.heap && s'.entries == s.entries[k := e] && s'.heap == s.heap[e := s'.heap[e]]
    requires s'.heap[e].ref == ref
    ensures Sum(EntrySizes(s')) == Sum(EntrySizes(s)) + ref.byteLength
    ensures |EntrySizes(s')| == |EntrySizes(s)| + 1
  {
    hide Sum, EntrySizes;
    SizesGrow(s, s', k, e, ref);
    SumInsert(EntrySizes(s), k, ref.byteLength);
  }

  lemma SizesGrow(s: Store, s': Store, k: Key, e: EntryId, ref: Ref)
    requires RegistryWf(s) && k !in s.entries && e !in s.heap
    requires e in s'.heap && s'.entries == s.entries[k := e] && s'.heap == s.heap[e := s'.heap[e]]
    requires s'.heap[e].ref == ref
    ensures k !in EntrySizes(s) && EntrySizes(s') == EntrySizes(s)[k := ref.byteLength]
  {
    hide Sum;
    forall j | j in s.entries
      ensures j in s'.entries && s'.entries[j] in s'.heap && s'.heap[s'.entries[j]].ref == s.heap[s.entries[j]].ref
    {
      assert s.entries[j] in s.heap && s.entries[j] != e;
    }
  }

  lemma StageCommitEffect(s: Store, o: OpId, e: EntryId, t: TokenId)
    requires CanStageCommit(s, o, e, t) && OpFine(s, o)
    ensures var s' := StageCommit(s, o, e, t); var StageBuilding(ref, reserved, _) := s.ops[o];
            && HasReservation(s, o) && s.ops[o].StageBuilding? && s'.ops == s.ops[o := Finished]
            && s'.limits == s.limits && s'.tombstones == s.tombstones
            && ContentKey(ref) !in s.entries && e !in s.heap
            && s'.entries == s.entries[ContentKey(ref) := e] && s'.heap == s.heap[e := Entry(ref, false, 1, 0, false)]
            && s'.bytes == s.bytes + ref.byteLength && s'.items == s.items + 1 && ref.byteLength <= reserved
            && s'.reservedBytes == s.reservedBytes - reserved && s'.reservedItems == s.reservedItems - 1
  {
    hide Sum;
  }

  lemma StageCommitQuota(s: Store, o: OpId, e: EntryId, t: TokenId)
    requires QuotaInv(s) && RegistryWf(s) && CanStageCommit(s, o, e, t) && OpFine(s, o)
    ensures QuotaInv(StageCommit(s, o, e, t))
  {
    hide Reservations, EntrySizes, RegistryWf, StageCommit, CanStageCommit, OpOk, Sum;
    var s' := StageCommit(s, o, e, t);
    StageCommitEffect(s, o, e, t);
    ReservationEnds(s, s', o);
    EntryBegins(s, s', ContentKey(s.ops[o].ref), e, s.ops[o].ref);
  }

  lemma StageCommitCounts(s: Store, o: OpId, e: EntryId, t: TokenId)
    requires CanStageCommit(s, o, e, t)
    ensures Counts(s, StageCommit(s, o, e, t), o, t)
  {
    hide Sum;
    var s' := StageCommit(s, o, e, t);
    assert s'.tokens == s.tokens[t := s'.tokens[t]];
  }

  lemma StageUnwindQuota(s: Store, o: OpId)
    requires QuotaInv(s) && RegistryWf(s) && CanStageUnwind(s, o)
    ensures QuotaInv(StageUnwind(s, o))
  {
    hide StageUnwind, Sum, EntrySizes, Reservations, RegistryWf;
    var s' := StageUnwind(s, o);
    StageUnwindShape(s, o);
    SizesSame(s, s');
    ReservationEnds(s, s', o);
  }

  lemma StageUnwindShape(s: Store, o: OpId)
    requires CanStageUnwind(s, o)
    ensures var s' := StageUnwind(s, o);
      && s'.ops == s.ops[o := Finished] && s'.limits == s.limits && s'.heap == s.heap && s'.entries == s.entries
      && s'.tombstones == s.tombstones && s'.bytes == s.bytes && s'.items == s.items
      && s'.reservedBytes == s.reservedBytes - s.ops[o].reserved && s'.reservedItems == s.reservedItems - 1
  {
    hide Sum;
  }

  lemma StageUnwindUncounted(s: Store, o: OpId)
    requires CanStageUnwind(s, o)
    ensures Uncounted(s, StageUnwind(s, o), o)
  {
    hide Sum;
  }

  // ---------------------------------------------------------------- handles

  lemma PublishWriteQuiet(s: Store, o: OpId, ok: bool)
    requires CanPublishWrite(s, o)
    ensures var s' := PublishWrite(s, o, ok); Uncounted(s, s', o) && SameEntries(s, s') && SameQuota(s, s', o)
  {
    hide Sum;
  }

  lemma PublishDoneQuiet(s: Store, o: OpId)
    requires CanPublishDone(s, o)
    ensures var s' := PublishDone(s, o); Uncounted(s, s', o) && SameEntries(s, s') && SameQuota(s, s', o)
  {
    hide Sum;
  }

  lemma PinCallCounts(s: Store, o: OpId, ref: Ref)
    requires CanPinCall(s, o, ref)
    ensures var s' := PinCall(s, o, ref); Counts(s, s', o, 0) && SameQuota(s, s', o)
  {
    hide Sum;
  }

  lemma PinOpenedCounts(s: Store, o: OpId, t: TokenId)
    requires CanPinOpened(s, o, t)
    ensures var s' := PinOpened(s, o, t); Counts(s, s', o, t) && SameQuota(s, s', o)
  {
    hide Sum;
  }

  predicate PinCounted(s: Store, o: OpId) {
    && o in s.ops && s.ops[o].Pinning? && s.ops[o].entry in s.heap
    && s.heap[s.ops[o].entry].pins > 0 && !s.heap[s.ops[o].entry].deleting
  }

  /** An opening pin is itself counted, so the clamp at zero never fires. */
  lemma PinCountedPositive(s: Store, o: OpId)
    requires Inv(s) && CanPinFail(s, o)
    ensures PinCounted(s, o)
  {
    hide Sum;
    var e := s.ops[o].entry;
    assert CountOk(s, e);
    assert o in PinsInFlight(s.ops, e);
  }

  lemma PinFailCounts(s: Store, o: OpId)
    requires CanPinFail(s, o) && PinCounted(s, o)
    ensures var s' := PinFail(s, o); Counts(s, s', o, 0) && SameQuota(s, s', o)
  {
    hide Sum;
  }

  lemma HoldVerifiedCounts(s: Store, o: OpId, ok: bool, t: TokenId)
    requires CanHoldVerified(s, o, t) && OpFine(s, o)
    ensures var s' := HoldVerified(s, o, ok, t); Counts(s, s', o, t) && SameQuota(s, s', o)
  {
    hide Sum;
  }

  lemma ReleaseCallCounts(s: Store, o: OpId, t: TokenId)
    requires CanReleaseCall(s, o, t)
    ensures var s' := ReleaseCall(s, o, t); Counts(s, s', o, t) && SameQuota(s, s', o)
  {
    hide Sum;
  }

  /** What a release under way knows when it reaches the head of the queue. */
  ghost predicate ReleaseReady(s: Store, o: OpId) {
    && CanReleaseEnter(s, o)
    && var tok := s.tokens[s.ops[o].token];
    && tok.phase == Releasing(o) && Steady(s, tok.key, tok.entry)
    && (tok.kind == HoldToken ==> s.heap[tok.entry].holds > 0)
    && (tok.kind == PinToken ==> s.heap[tok.entry].pins > 0)
  }

  /** A handle being released still counts, so the clamp at zero never fires and its entry is registered. */
  lemma IsReleaseReady(s: Store, o: OpId)
    requires Inv(s) && CanReleaseEnter(s, o)
    ensures ReleaseReady(s, o)
  {
    hide Inv, CountedTokens, PinsInFlight, CountOk, OnDisk;
    var t := s.ops[o].token;
    OpFact(s, o);
    TokenFact(s, t);
    CountedPositive(s, t);
  }

  lemma CountedPositive(s: Store, t: TokenId)
    requires t in s.tokens && (s.tokens[t].phase.Active? || s.tokens[t].phase.Releasing?)
    requires CountOk(s, s.tokens[t].entry)
    ensures s.tokens[t].kind == HoldToken ==> s.heap[s.tokens[t].entry].holds > 0
    ensures s.tokens[t].kind == PinToken ==> s.heap[s.tokens[t].entry].pins > 0
  {
    hide PinsInFlight;
    assert t in CountedTokens(s.tokens, s.tokens[t].kind, s.tokens[t].entry);
  }

  lemma ReleaseEnterCounts(s: Store, o: OpId)
    requires CanReleaseEnter(s, o) && ReleaseReady(s, o)
    ensures var s' := ReleaseEnter(s, o); Counts(s, s', o, TokenOf(s, o)) && SameQuota(s, s', o) && SameEntries(s, s')
  {
    hide ReleaseEnter, CanReleaseEnter, ReleaseReady, Lowered;
    ReadyShape(s, o);
    LoweredOnce(s, o);
  }

  lemma LoweredOnce(s: Store, o: OpId)
    requires CanReleaseEnter(s, o) && ReleaseReady(s, o)
    ensures var tok := s.tokens[s.ops[o].token]; var en := s.heap[tok.entry]; var low := Lowered(en, tok.kind);
            && tok.phase == Releasing(o) && tok.entry in s.heap
            && low.holds == en.holds - (if tok.kind == HoldToken then 1 else 0)
            && low.pins == en.pins - (if tok.kind == PinToken then 1 else 0)
  {
    hide Sum;
  }

  /** A release that is ready lowers its counter, moves its own token, and leaves the quota to the deletion. */
  lemma ReadyShape(s: Store, o: OpId)
    requires CanReleaseEnter(s, o) && ReleaseReady(s, o)
    ensures o in s.ops && TokenOf(s, o) == s.ops[o].token
    ensures var s' := ReleaseEnter(s, o); var t := s.ops[o].token; var tok := s.tokens[t]; var e := tok.entry;
            && s.ops[o].ReleaseQueued? && o in s'.ops && s'.ops == s.ops[o := s'.ops[o]]
            && (s'.ops[o].Finished? || s'.ops[o].Deleting?)
            && t in s.tokens && t in s'.tokens && s'.tokens == s.tokens[t := s'.tokens[t]] && e in s.heap
            && e in s'.heap
            && !s.heap[e].deleting && (s'.heap[e].deleting ==> s'.heap[e].holds == 0 && s'.heap[e].pins == 0)
            && s'.tokens[t].kind == tok.kind && s'.tokens[t].entry == e
            && (s'.tokens[t].phase.Released? || s'.tokens[t].phase.Removing?)
            && s'.heap == s.heap[e := s'.heap[e]] && s'.heap[e].ref == s.heap[e].ref
            && s'.heap[e].holds == Lowered(s.heap[e], tok.kind).holds
            && s'.heap[e].pins == Lowered(s.heap[e], tok.kind).pins
            && s'.limits == s.limits && s'.entries == s.entries && s'.tombstones == s.tombstones
            && s'.bytes == s.bytes && s'.items == s.items && s'.reservedBytes == s.reservedBytes
            && s'.reservedItems == s.reservedItems
  {
    hide Sum;
  }

  // ---------------------------------------------------------------- removal

  lemma DeleteRenameQuiet(s: Store, o: OpId, ok: bool, tomb: TombId)
    requires CanDeleteRename(s, o, tomb)
    ensures var s' := DeleteRename(s, o, ok, tomb); Uncounted(s, s', o) && SameEntries(s, s') && SameQuota(s, s', o)
  {
    hide Sum;
  }

  lemma EntryEnds(s: Store, s': Store, k: Key)
    requires RegistryWf(s) && k in s.entries && s'.entries == s.entries - {k} && s'.heap == s.heap
    ensures Sum(EntrySizes(s')) == Sum(EntrySizes(s)) - s.heap[s.entries[k]].ref.byteLength
    ensures |EntrySizes(s')| == |EntrySizes(s)| - 1
  {
    hide Sum;
    SumDelete(EntrySizes(s), k);
    assert EntrySizes(s') == EntrySizes(s) - {k};
  }

  lemma DeleteUnregisterShape(s: Store, o: OpId)
    requires CanDeleteUnregister(s, o) && OpFine(s, o)
    ensures var s' := DeleteUnregister(s, o); var op := s.ops[o];
            && SameReservation(s, s', o) && s'.limits == s.limits && s'.bytes == s.bytes && s'.items == s.items
            && s'.heap == s.heap
            && op.key in s.entries && s.entries[op.key] == op.entry && op.stage.tomb !in s.tombstones
            && s'.entries == s.entries - {op.key}
            && s'.tombstones == s.tombstones[op.stage.tomb := s.heap[op.entry].ref.byteLength]
  {
    hide Sum;
  }

  lemma DeleteUnregisterQuota(s: Store, o: OpId)
    requires QuotaInv(s) && RegistryWf(s) && CanDeleteUnregister(s, o) && OpFine(s, o)
    ensures QuotaInv(DeleteUnregister(s, o))
  {
    hide Reservations, EntrySizes, RegistryWf, DeleteUnregister, Sum;
    var s' := DeleteUnregister(s, o);
    var op := s.ops[o];
    DeleteUnregisterShape(s, o);
    EntryEnds(s, s', op.key);
    SumInsert(s.tombstones, op.stage.tomb, s.heap[op.entry].ref.byteLength);
    ReservationsSame(s, s', o);
  }

  lemma DeleteUnregisterUncounted(s: Store, o: OpId)
    requires CanDeleteUnregister(s, o)
    ensures Uncounted(s, DeleteUnregister(s, o), o)
  {
    hide Sum;
  }

  lemma DropTombQuota(s: Store, s': Store, o: OpId, tomb: TombId)
    requires QuotaInv(s) && RegistryWf(s) && SameReservation(s, s', o)
    requires var d := DropTomb(s, tomb);
             s'.tombstones == d.tombstones && s'.bytes == d.bytes && s'.items == d.items && s'.entries == s.entries &&
               s'.heap == s.heap && s'.limits == s.limits
    ensures QuotaInv(s')
  {
    hide Sum;
    if tomb in s.tombstones { SumDelete(s.tombstones, tomb); }
    assert EntrySizes(s') == EntrySizes(s);
    ReservationsSame(s, s', o);
  }

  lemma DeleteRemoveQuota(s: Store, o: OpId, ok: bool)
    requires QuotaInv(s) && RegistryWf(s) && CanDeleteRemove(s, o)
    ensures QuotaInv(DeleteRemove(s, o, ok))
  {
    hide QuotaInv, RegistryWf, DropTomb;
    var s' := DeleteRemove(s, o, ok);
    DeleteRemoveShape(s, o, ok);
    assert SameReservation(s, s', o);
    if ok { DropTombQuota(s, s', o, s.ops[o].stage.tomb); } else { QuotaUntouched(s, s', o); }
  }

  lemma DeleteRemoveUncounted(s: Store, o: OpId, ok: bool)
    requires CanDeleteRemove(s, o)
    ensures Uncounted(s, DeleteRemove(s, o, ok), o)
  {
    hide DeleteRemove, DropTomb;
    DeleteRemoveShape(s, o, ok);
  }

  lemma DeleteLeaveTokens(s: Store, o: OpId)
    requires CanDeleteLeave(s, o) && OpFine(s, o) && !LeavesFailed(s, o)
    ensures TokenEnds(s, DeleteLeave(s, o), TokenOf(s, o))
  {
    hide Sum;
  }

  lemma DeleteCatchGoneTokens(s: Store, o: OpId)
    requires CanDeleteCatch(s, o) && OpFine(s, o) && !StillRegistered(s, o)
    ensures TokenEnds(s, DeleteCatch(s, o), TokenOf(s, o))
  {
    hide Sum;
  }

  /** Nothing counts on the entry of a deletion that failed. */
  predicate Drained(s: Store, o: OpId) {
    && o in s.ops && s.ops[o].DeleteFailed? && s.ops[o].entry in s.heap
    && s.heap[s.ops[o].entry].holds == 0 && s.heap[s.ops[o].entry].pins == 0
  }

  /** The deletion is undone: the counter of its handle is raised from zero again. */
  lemma UndoShape(s: Store, o: OpId)
    requires CanDeleteCatch(s, o) && OpFine(s, o) && StillRegistered(s, o) && TokensInv(s) && Drained(s, o)
    ensures var s' := DeleteCatch(s, o); var e := s.ops[o].entry; var t := TokenOf(s, o);
      && o in s.ops && e in s.heap && s.ops[o].DeleteFailed? && s'.ops == s.ops[o := Finished]
      && s'.limits == s.limits && s'.entries == s.entries && s'.tombstones == s.tombstones
      && s'.bytes == s.bytes && s'.items == s.items
      && s'.reservedBytes == s.reservedBytes && s'.reservedItems == s.reservedItems
      && e in s'.heap && s'.heap == s.heap[e := s'.heap[e]] && s'.heap[e].ref == s.heap[e].ref && !s'.heap[e].deleting
      && s.heap[e].holds == 0 && s.heap[e].pins == 0
      && (if ForRelease(s, o)
          then t in s.tokens && s.tokens[t].entry == e && s.tokens[t].phase.Removing?
               && s'.tokens == s.tokens[t := s.tokens[t].(phase := Active)]
               && s'.heap[e].holds == (if s.tokens[t].kind == HoldToken then 1 else 0)
               && s'.heap[e].pins == (if s.tokens[t].kind == PinToken then 1 else 0)
          else s'.tokens == s.tokens && s'.heap[e].holds == 0 && s'.heap[e].pins == 0)
  {
    hide CandidatesOk, OnDisk;
    if ForRelease(s, o) {} else {}
  }

  lemma DeleteCatchUndoCounts(s: Store, o: OpId)
    requires CanDeleteCatch(s, o) && OpFine(s, o) && StillRegistered(s, o)
    requires TokensInv(s)
    requires Drained(s, o)
    ensures var s' := DeleteCatch(s, o);
      Counts(s, s', o, TokenOf(s, o)) && SameQuota(s, s', o) && SameEntries(s, s')
  {
    hide CandidatesOk, OnDisk, RegistryWf, TokensInv, CanDeleteCatch, DeleteCatch, OpFine, StillRegistered, Drained;
    UndoShape(s, o);
  }

  lemma DeletingIsUnused(s: Store, o: OpId)
    requires Inv(s) && CanDeleteCatch(s, o)
    ensures Drained(s, o)
  {
    hide Inv, CandidatesOk, OnDisk, CountedTokens, PinsInFlight;
    OpFact(s, o);
    InvParts(s);
    assert CountOk(s, s.ops[o].entry);
  }

  lemma GcCleanOps(s: Store, o: OpId, tomb: TombId)
    requires CanGcClean(s, o, tomb)
    ensures SameReservation(s, GcClean(s, o, tomb, true), o)
    ensures var s' := GcClean(s, o, tomb, true); var d := DropTomb(s, tomb);
            s'.tombstones == d.tombstones && s'.bytes == d.bytes && s'.items == d.items && s'.entries == s.entries &&
              s'.heap == s.heap && s'.limits == s.limits
  {
    hide Sum;
    assert s.ops == s.ops[o := s.ops[o]];
  }

  lemma GcCleanQuota(s: Store, o: OpId, tomb: TombId)
    requires QuotaInv(s) && RegistryWf(s) && CanGcClean(s, o, tomb)
    ensures QuotaInv(GcClean(s, o, tomb, true))
  {
    GcCleanOps(s, o, tomb);
    hide *;
    DropTombQuota(s, GcClean(s, o, tomb, true), o, tomb);
  }

  lemma GcCleanUncounted(s: Store, o: OpId, tomb: TombId)
    requires CanGcClean(s, o, tomb)
    ensures Uncounted(s, GcClean(s, o, tomb, true), o)
  {
    hide DropTomb;
    DropTombShape(s, tomb);
    assert s.ops == s.ops[o := s.ops[o]];
  }

  lemma CollectableIsAlone(s: Store, o: OpId)
    requires CountsInv(s) && Collectable(s, o)
    ensures NoUsersOf(s, o)
  {
    hide Sum;
    UnusedIsAlone(s, s.ops[o].entry);
  }

  /** An entry whose counters are zero is named by no counted handle and no opening pin. */
  lemma UnusedIsAlone(s: Store, e: EntryId)
    requires CountsInv(s) && e in s.heap && s.heap[e].holds == 0 && s.heap[e].pins == 0
    ensures NoUsers(s, e)
  {
    hide Sum;
    assert CountOk(s, e);
    forall t | t in s.tokens && s.tokens[t].entry == e
      ensures !s.tokens[t].phase.Active? && !s.tokens[t].phase.Releasing?
    {
      assert t !in CountedTokens(s.tokens, HoldToken, e) && t !in CountedTokens(s.tokens, PinToken, e);
    }
    forall o | o in s.ops && s.ops[o].Pinning? ensures s.ops[o].entry != e {
      assert o !in PinsInFlight(s.ops, e);
    }
  }

  lemma GcEnterCounts(s: Store, o: OpId)
    requires CanGcEnter(s, o) && Collectable(s, o)
    ensures var s' := GcEnter(s, o); Counts(s, s', o, 0) && SameQuota(s, s', o) && SameEntries(s, s')
  {
    hide Sum;
    var s' := GcEnter(s, o);
    assert s'.ops[o].Deleting?;
  }
}

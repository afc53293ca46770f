/** What every reachable state of the content store satisfies. */
module ContentStoreInvariant {
  import opened Prelude
  import opened ContentRefs
  import opened ContentStore

  // ---------------------------------------------------------------- the invariant

  /** Whoever is inside a lock is the head of its queue. */
  ghost predicate LockInv(s: Store) {
    && (forall o :: o in s.ops && InsideOf(s, s.ops[o]).Some? ==> AtHead(s, InsideOf(s, s.ops[o]).value, o))
    && (forall o :: o in s.ops && InsideTomb(s.ops[o]) ==> AtTombHead(s, o))
  }

  ghost predicate Registered(s: Store, k: Key, e: EntryId) {
    k in s.entries && s.entries[k] == e && e in s.heap
  }

  /** The directory of a registered entry is complete, and published on disk once published in memory. */
  ghost predicate OnDisk(s: Store, k: Key, e: EntryId) {
    && e in s.heap && k in s.disk
    && s.disk[k].content == Some(s.heap[e].ref)
    && s.disk[k].manifest.Some?
    && s.disk[k].manifest.value.0 == s.heap[e].ref
    && (s.heap[e].published ==> s.disk[k].manifest.value.1)
  }

  ghost predicate EntryOk(s: Store, k: Key) {
    && k in s.entries && s.entries[k] in s.heap
    && ContentKey(s.heap[s.entries[k]].ref) == k
    && (!s.heap[s.entries[k]].deleting ==> OnDisk(s, k, s.entries[k]))
  }

  ghost predicate EntriesInv(s: Store) {
    forall k :: k in s.entries ==> EntryOk(s, k)
  }

  /** Registered, not being deleted, and named by its own key. */
  ghost predicate Steady(s: Store, k: Key, e: EntryId) {
    Registered(s, k, e) && !s.heap[e].deleting && ContentKey(s.heap[e].ref) == k
  }

  ghost predicate TokenOk(s: Store, tok: Token) {
    && tok.entry in s.heap
    && tok.key == ContentKey(s.heap[tok.entry].ref)
    && (tok.kind == PinToken ==> s.heap[tok.entry].published)
    && (tok.phase.Active? || tok.phase.Releasing? ==> Steady(s, tok.key, tok.entry))
  }

  ghost predicate TokensInv(s: Store) {
    forall t :: t in s.tokens ==> TokenOk(s, s.tokens[t])
  }

  ghost predicate OpOk(s: Store, o: OpId, op: Op) {
    match op
    case Staging(ns, expected, reserved) =>
      reserved == if expected.Some? then expected.value else BlobLimit(s, ns)
    case StageQueued(ref, reserved) => ref.byteLength <= reserved
    case StageVerifying(ref, reserved, e) =>
      ref.byteLength <= reserved && Steady(s, ContentKey(ref), e) && s.heap[e].ref == ref
    case StageBuilding(ref, reserved, p) =>
      && ref.byteLength <= reserved
      && ContentKey(ref) !in s.entries
      && (p.ContentPlaced? ==> ContentKey(ref) in s.disk && s.disk[ContentKey(ref)].content == Some(ref))
      && (p.ManifestWritten? ==>
           ContentKey(ref) in s.disk && s.disk[ContentKey(ref)] == Blob(Some(ref), Some((ref, false))))
    case StageCleaning(ref, reserved) => ContentKey(ref) !in s.entries
    case StageUnwinding(_) => true
    case PublishQueued(t) => t in s.tokens && s.tokens[t].kind == HoldToken
    case PublishVerifying(t, e) => PublishOk(s, t, e)
    case PublishWriting(t, e) => PublishOk(s, t, e)
    case PublishWritten(t, e) =>
      PublishOk(s, t, e) && OnDisk(s, s.tokens[t].key, e) && s.disk[s.tokens[t].key].manifest.value.1
    case Pinning(ref, e) =>
      Steady(s, ContentKey(ref), e) && s.heap[e].ref == ref && s.heap[e].published
    case HoldQueued(_) => true
    case HoldVerifying(ref, e) => Steady(s, ContentKey(ref), e) && s.heap[e].ref == ref && s.heap[e].published
    case ReleaseQueued(t) => t in s.tokens && s.tokens[t].phase == Releasing(o)
    case Deleting(why, k, e, stage) =>
      && DyingOk(s, o, why, k, e)
      && (stage.Waiting? || stage.Renaming? ==> Registered(s, k, e) && OnDisk(s, k, e))
      && (stage.Renamed? ==> Registered(s, k, e) && stage.tomb !in s.tombstones)
      && (stage.Unregistered? ==> !Registered(s, k, e))
      && (stage.Leaving? ==>
            && (Registered(s, k, e) ==> OnDisk(s, k, e))
            && (!stage.failed ==> !Registered(s, k, e)))
    case DeleteFailed(why, k, e) => DyingOk(s, o, why, k, e) && (Registered(s, k, e) ==> OnDisk(s, k, e))
    case GcCleanupQueued(cs) => CandidatesOk(s, cs)
    case GcCleaning(cs) => CandidatesOk(s, cs)
    case GcNext(cs) => CandidatesOk(s, cs)
    case GcQueued(k, e, rest) => CandidateOk(s, (k, e)) && CandidatesOk(s, rest)
    case Finished => true
  }

  ghost predicate PublishOk(s: Store, t: TokenId, e: EntryId) {
    t in s.tokens && s.tokens[t].kind == HoldToken && Steady(s, s.tokens[t].key, e) && !s.heap[e].published
  }

  /** A candidate of a collection may have been deleted since, but then its flag stays up for ever. */
  ghost predicate CandidateOk(s: Store, c: (Key, EntryId)) {
    && c.1 in s.heap && ContentKey(s.heap[c.1].ref) == c.0
    && (s.heap[c.1].deleting || Registered(s, c.0, c.1))
  }

  ghost predicate CandidatesOk(s: Store, cs: seq<(Key, EntryId)>) {
    forall c :: c in cs ==> CandidateOk(s, c)
  }

  ghost predicate DyingOk(s: Store, o: OpId, why: DeleteReason, k: Key, e: EntryId) {
    && e in s.heap && ContentKey(s.heap[e].ref) == k && s.heap[e].deleting
    && (why.ByRelease? ==>
          && why.token in s.tokens && s.tokens[why.token].entry == e
          && s.tokens[why.token].phase == Removing(o))
    && (why.ByGc? ==> CandidatesOk(s, why.rest))
  }

  /** What an operation under way can rely on: its own facts, and its place at the head of the lock. */
  ghost predicate OpFine(s: Store, o: OpId) {
    o in s.ops ==>
      OpOk(s, o, s.ops[o]) && (Inside(s.ops[o]).Some? ==> AtHead(s, Inside(s.ops[o]).value, o))
  }

  ghost predicate OpsInv(s: Store) {
    forall o :: o in s.ops ==> OpOk(s, o, s.ops[o])
  }

  predicate KilledBy(s: Store, o: OpId, e: EntryId) {
    o in s.ops && (s.ops[o].Deleting? || s.ops[o].DeleteFailed?) && s.ops[o].entry == e
  }

  /** An entry is deleted by at most one operation, and a registered entry with its flag up has one. */
  ghost predicate DeleterInv(s: Store) {
    && (forall o1, o2, e :: KilledBy(s, o1, e) && KilledBy(s, o2, e) ==> o1 == o2)
    && (forall k :: k in s.entries && s.entries[k] in s.heap && s.heap[s.entries[k]].deleting ==>
         HasKiller(s, s.entries[k]))
  }

  ghost predicate HasKiller(s: Store, e: EntryId) {
    exists o :: KilledBy(s, o, e)
  }

  // Counters against the handles they count.

  predicate Counted(tok: Token, kind: TokenKind, e: EntryId) {
    tok.kind == kind && tok.entry == e && (tok.phase.Active? || tok.phase.Releasing?)
  }

  ghost function CountedTokens(tokens: map<TokenId, Token>, kind: TokenKind, e: EntryId): set<TokenId> {
    set t | t in tokens && Counted(tokens[t], kind, e)
  }

  predicate Pins(op: Op, e: EntryId) { op.Pinning? && op.entry == e }

  ghost function PinsInFlight(ops: map<OpId, Op>, e: EntryId): set<OpId> {
    set o | o in ops && Pins(ops[o], e)
  }

  ghost predicate CountOk(s: Store, e: EntryId) {
    && e in s.heap
    && s.heap[e].holds == |CountedTokens(s.tokens, HoldToken, e)|
    && s.heap[e].pins == |CountedTokens(s.tokens, PinToken, e)| + |PinsInFlight(s.ops, e)|
    && (s.heap[e].deleting ==> s.heap[e].holds == 0 && s.heap[e].pins == 0)
  }

  ghost predicate CountsInv(s: Store) {
    forall e :: e in s.heap ==> CountOk(s, e)
  }

  // Quota.

  ghost function EntrySizes(s: Store): map<Key, nat> {
    map k | k in s.entries && s.entries[k] in s.heap :: s.heap[s.entries[k]].ref.byteLength
  }

  ghost function Reservations(s: Store): map<OpId, nat> {
    map o | o in s.ops && Reserves(s.ops[o]) :: ReservedBytes(s.ops[o])
  }

  ghost predicate QuotaInv(s: Store) {
    && s.bytes == Sum(EntrySizes(s)) + Sum(s.tombstones)
    && s.items == |EntrySizes(s)| + |s.tombstones|
    && s.reservedBytes == Sum(Reservations(s))
    && s.reservedItems == |Reservations(s)|
    && s.bytes + s.reservedBytes <= s.limits.maxCacheBytes
    && s.items + s.reservedItems <= s.limits.maxCacheItems
  }

  ghost predicate ShapeInv(s: Store) {
    LockInv(s) && EntriesInv(s) && TokensInv(s) && OpsInv(s) && DeleterInv(s)
  }

  ghost predicate Inv(s: Store) {
    ShapeInv(s) && CountsInv(s) && QuotaInv(s)
  }

  // ---------------------------------------------------------------- the frame of an action

  /** No handle and no opening pin counts on the entry. */
  ghost predicate NoUsers(s: Store, e: EntryId) {
    && (forall t :: t in s.tokens && s.tokens[t].entry == e ==>
         !s.tokens[t].phase.Active? && !s.tokens[t].phase.Releasing?)
    && (forall o :: o in s.ops && s.ops[o].Pinning? ==> s.ops[o].entry != e)
  }

  ghost predicate QueuesStep<K>(q: seq<K>, q': seq<K>, o: K) {
    q' == q || q' == q + [o] || (q != [] && q[0] == o && q' == q[1..])
  }

  ghost predicate EntryStep(s: Store, s': Store, o: OpId, e: EntryId) {
    && e in s.heap && e in s'.heap
    && s'.heap[e].ref == s.heap[e].ref
    && (s.heap[e].published ==> s'.heap[e].published)
    && (s'.heap[e].published != s.heap[e].published ==> AtHead(s, ContentKey(s.heap[e].ref), o) && !s.heap[e].deleting)
    && (!s.heap[e].deleting && s'.heap[e].deleting ==> AtHead(s, ContentKey(s.heap[e].ref), o) && NoUsers(s', e))
    && (s.heap[e].deleting && !s'.heap[e].deleting ==>
         KilledBy(s, o, e) && Registered(s', ContentKey(s.heap[e].ref), e))
  }

  ghost predicate RegistryStep(s: Store, s': Store, o: OpId, k: Key) {
    || (k !in s.entries && k !in s'.entries)
    || (k in s.entries && k in s'.entries && s.entries[k] == s'.entries[k])
    || (k !in s.entries && k in s'.entries && AtHead(s, k, o) && s'.entries[k] !in s.heap)
    || (k in s.entries && k !in s'.entries && AtHead(s, k, o) && KilledBy(s, o, s.entries[k])
        && s.entries[k] in s.heap && s.heap[s.entries[k]].deleting)
  }

  ghost predicate DiskStep(s: Store, s': Store, o: OpId, k: Key) {
    || (k !in s.disk && k !in s'.disk)
    || (k in s.disk && k in s'.disk && s.disk[k] == s'.disk[k])
    || (AtHead(s, k, o)
        && (k in s.entries ==>
              || (Steady(s, k, s.entries[k]) && (OnDisk(s, k, s.entries[k]) ==> OnDisk(s', k, s.entries[k])))
              || KilledBy(s, o, s.entries[k])))
  }

  /** An active handle moves only when its release is called. */
  ghost predicate TokenStep(s: Store, s': Store, o: OpId, t: TokenId) {
    && t in s.tokens && t in s'.tokens
    && s'.tokens[t].kind == s.tokens[t].kind && s'.tokens[t].key == s.tokens[t].key
    && s'.tokens[t].entry == s.tokens[t].entry
    && (s'.tokens[t].phase == s.tokens[t].phase || s.tokens[t].phase in {Releasing(o), Removing(o)}
        || (s.tokens[t].phase == Active && o !in s.ops && o in s'.ops && s'.ops[o] == ReleaseQueued(t)))
  }

  /** What an action of `o` may change: only its own operation, and shared state only under locks it
      heads or on an entry it is deleting. */
  ghost predicate Framed(s: Store, s': Store, o: OpId) {
    && s'.limits == s.limits
    && (forall o2 :: o2 != o ==> (o2 in s.ops <==> o2 in s'.ops))
    && (forall o2 :: o2 != o && o2 in s.ops ==> s'.ops[o2] == s.ops[o2])
    && (forall k :: QueuesStep(Queue(s, k), Queue(s', k), o))
    && QueuesStep(s.tombstoneQueue, s'.tombstoneQueue, o)
    && (forall e :: e in s.heap ==> EntryStep(s, s', o, e))
    && (forall k :: RegistryStep(s, s', o, k))
    && (forall k :: DiskStep(s, s', o, k))
    && (forall t :: t in s.tokens ==> TokenStep(s, s', o, t))
    && (s'.tombstones.Keys <= s.tombstones.Keys || AtTombHead(s, o))
  }

  /** The obligations that remain for the acting operation and for what it created. */
  ghost predicate Settled(s: Store, s': Store, o: OpId) {
    && o in s'.ops && OpOk(s', o, s'.ops[o])
    && (InsideOf(s', s'.ops[o]).Some? ==> AtHead(s', InsideOf(s', s'.ops[o]).value, o))
    && (InsideTomb(s'.ops[o]) ==> AtTombHead(s', o))
    && (forall t :: t in s'.tokens ==>
          || (t in s.tokens && (s'.tokens[t].phase == s.tokens[t].phase ||
            !(s'.tokens[t].phase.Active? || s'.tokens[t].phase.Releasing?)))
          || TokenOk(s', s'.tokens[t]))
    && (forall k :: k in s'.entries ==>
          || (k in s.entries && s.entries[k] == s'.entries[k] && s.entries[k] in s.heap && s.entries[k] in s'.heap
              && s'.heap[s.entries[k]].published == s.heap[s.entries[k]].published
              && (s.heap[s.entries[k]].deleting ==> s'.heap[s.entries[k]].deleting))
          || EntryOk(s', k))
    && (forall e :: KilledBy(s', o, e) ==> KilledBy(s, o, e) || (e in s.heap && !s.heap[e].deleting))
    && (forall k :: k in s'.entries && s'.entries[k] in s'.heap && s'.heap[s'.entries[k]].deleting ==>
          || KilledBy(s', o, s'.entries[k])
          || (k in s.entries && s.entries[k] == s'.entries[k] && s.entries[k] in s.heap && s.heap[s.entries[k]].deleting
              && !KilledBy(s, o, s.entries[k])))
  }

  lemma HeadStays<K>(q: seq<K>, q': seq<K>, o: K, o2: K)
    requires QueuesStep(q, q', o) && q != [] && q[0] == o2 && o2 != o
    ensures q' != [] && q'[0] == o2
  {
  }

  /** Another operation inside a digest lock keeps its own facts: nothing under its key moves. */
  lemma OtherInsideKept(s: Store, s': Store, o: OpId, o2: OpId)
    requires LockInv(s) && DeleterInv(s) && Framed(s, s', o)
    requires o2 in s.ops && o2 != o && OpOk(s, o2, s.ops[o2]) && InsideOf(s, s.ops[o2]).Some?
    ensures OpOk(s', o2, s.ops[o2])
  {
    hide CandidatesOk, CandidateOk, DyingOk;
    var op := s.ops[o2];
    var k := InsideOf(s, op).value;
    assert AtHead(s, k, o2);
    assert RegistryStep(s, s', o, k) && DiskStep(s, s', o, k);
    if op.Deleting? {
      OtherDeletingKept(s, s', o, o2);
    }
  }

  lemma OtherDeletingKept(s: Store, s': Store, o: OpId, o2: OpId)
    requires LockInv(s) && DeleterInv(s) && Framed(s, s', o)
    requires o2 in s.ops && o2 != o && OpOk(s, o2, s.ops[o2]) && s.ops[o2].Deleting?
    ensures OpOk(s', o2, s.ops[o2])
  {
    hide QuotaInv;
    var op := s.ops[o2];
    assert AtHead(s, op.key, o2);
    assert RegistryStep(s, s', o, op.key) && DiskStep(s, s', o, op.key);
    assert !KilledBy(s, o, op.entry) by { assert KilledBy(s, o2, op.entry); }
    if op.why.ByGc? { CandidatesKept(s, s', o, op.why.rest); }
  }

  lemma OtherFailedKept(s: Store, s': Store, o: OpId, o2: OpId)
    requires DeleterInv(s) && Framed(s, s', o)
    requires o2 in s.ops && o2 != o && OpOk(s, o2, s.ops[o2]) && s.ops[o2].DeleteFailed?
    ensures OpOk(s', o2, s.ops[o2])
  {
    hide QuotaInv;
    var DeleteFailed(why, k, e) := s.ops[o2];
    assert !KilledBy(s, o, e) by { assert KilledBy(s, o2, e); }
    assert RegistryStep(s, s', o, k) && DiskStep(s, s', o, k);
    if why.ByGc? { CandidatesKept(s, s', o, why.rest); }
  }

  /** So does one outside every digest lock: its facts survive what others do under its key. */
  lemma OtherOutsideKept(s: Store, s': Store, o: OpId, o2: OpId)
    requires LockInv(s) && DeleterInv(s) && Framed(s, s', o)
    requires o2 in s.ops && o2 != o && OpOk(s, o2, s.ops[o2]) && InsideOf(s, s.ops[o2]).None?
    ensures OpOk(s', o2, s.ops[o2])
  {
    hide QuotaInv;
    match s.ops[o2]
    case Pinning(ref, e) => assert RegistryStep(s, s', o, ContentKey(ref)); assert EntryStep(s, s', o, e);
    case DeleteFailed(_, _, _) => OtherFailedKept(s, s', o, o2);
    case GcCleanupQueued(cs) => CandidatesKept(s, s', o, cs);
    case GcCleaning(cs) => CandidatesKept(s, s', o, cs);
    case GcNext(cs) => CandidatesKept(s, s', o, cs);
    case GcQueued(k, e, rest) =>
      CandidatesKept(s, s', o, rest);
      CandidatesKept(s, s', o, [(k, e)]);
      assert (k, e) in [(k, e)];
    case _ =>
  }

  lemma CandidatesKept(s: Store, s': Store, o: OpId, cs: seq<(Key, EntryId)>)
    requires Framed(s, s', o) && CandidatesOk(s, cs)
    ensures CandidatesOk(s', cs)
  {
    hide QuotaInv;
    forall c | c in cs ensures CandidateOk(s', c) {
      assert CandidateOk(s, c);
      assert RegistryStep(s, s', o, c.0) && EntryStep(s, s', o, c.1);
    }
  }

  lemma TokenKept(s: Store, s': Store, o: OpId, t: TokenId)
    requires Framed(s, s', o) && t in s.tokens && TokenOk(s, s.tokens[t])
    requires s'.tokens[t].phase == s.tokens[t].phase || !(s'.tokens[t].phase.Active? || s'.tokens[t].phase.Releasing?)
    ensures TokenOk(s', s'.tokens[t])
  {
    hide QuotaInv;
    assert RegistryStep(s, s', o, s.tokens[t].key) && EntryStep(s, s', o, s.tokens[t].entry) && TokenStep(s, s', o, t);
  }

  lemma EntryKept(s: Store, s': Store, o: OpId, k: Key)
    requires Framed(s, s', o) && OpsInv(s) && k in s.entries && EntryOk(s, k)
    requires k in s'.entries && s.entries[k] == s'.entries[k]
    requires s'.heap[s.entries[k]].published == s.heap[s.entries[k]].published
    requires s.heap[s.entries[k]].deleting ==> s'.heap[s.entries[k]].deleting
    ensures EntryOk(s', k)
  {
    hide QuotaInv;
    assert DiskStep(s, s', o, k) && EntryStep(s, s', o, s.entries[k]);
    if KilledBy(s, o, s.entries[k]) { assert OpOk(s, o, s.ops[o]); }
  }

  lemma LocksKept(s: Store, s': Store, o: OpId)
    requires LockInv(s) && OpsInv(s) && Framed(s, s', o) && Settled(s, s', o)
    ensures LockInv(s')
  {
    hide QuotaInv;
    forall o2 | o2 in s'.ops && InsideOf(s', s'.ops[o2]).Some? ensures AtHead(s', InsideOf(s', s'.ops[o2]).value, o2) {
      if o2 != o {
        var op := s.ops[o2];
        assert OpOk(s, o2, op);
        var k := InsideOf(s', op).value;
        assert InsideOf(s, op) == Some(k);
        HeadStays(Queue(s, k), Queue(s', k), o, o2);
      }
    }
    forall o2 | o2 in s'.ops && InsideTomb(s'.ops[o2]) ensures AtTombHead(s', o2) {
      if o2 != o { HeadStays(s.tombstoneQueue, s'.tombstoneQueue, o, o2); }
    }
  }

  lemma DeletersKept(s: Store, s': Store, o: OpId)
    requires DeleterInv(s) && OpsInv(s) && Framed(s, s', o) && Settled(s, s', o)
    ensures DeleterInv(s')
  {
    hide QuotaInv;
    forall o2, e | o2 != o && KilledBy(s', o2, e)
      ensures KilledBy(s, o2, e) && e in s.heap && s.heap[e].deleting
    {
      assert OpOk(s, o2, s.ops[o2]);
    }
    forall o1, o2, e | KilledBy(s', o1, e) && KilledBy(s', o2, e) ensures o1 == o2 {}
    forall k | k in s'.entries && s'.entries[k] in s'.heap && s'.heap[s'.entries[k]].deleting
      ensures HasKiller(s', s'.entries[k])
    {
      var e := s'.entries[k];
      if !KilledBy(s', o, e) {
        assert HasKiller(s, e);
        var o2 :| KilledBy(s, o2, e);
        assert KilledBy(s', o2, e);
      }
    }
  }

  /** A framed, settled action keeps the shape of the store. */
  lemma ShapeKept(s: Store, s': Store, o: OpId)
    requires ShapeInv(s) && Steps(s, s', o)
    ensures ShapeInv(s')
  {
    hide QuotaInv;
    LocksKept(s, s', o);
    DeletersKept(s, s', o);
    forall o2 | o2 in s'.ops ensures OpOk(s', o2, s'.ops[o2]) {
      if o2 != o {
        if InsideOf(s, s.ops[o2]).Some? { OtherInsideKept(s, s', o, o2); } else { OtherOutsideKept(s, s', o, o2); }
      }
    }
    forall t | t in s'.tokens ensures TokenOk(s', s'.tokens[t]) {
      if !TokenOk(s', s'.tokens[t]) { TokenKept(s, s', o, t); }
    }
    forall k | k in s'.entries ensures EntryOk(s', k) {
      if !EntryOk(s', k) { EntryKept(s, s', o, k); }
    }
  }

  // ---------------------------------------------------------------- kinds of actions

  ghost predicate RegistryWf(s: Store) {
    forall k :: k in s.entries ==> s.entries[k] in s.heap && ContentKey(s.heap[s.entries[k]].ref) == k
  }

  /** The proof obligation of an action: `ShapeKept` does the rest. */
  ghost predicate Steps(s: Store, s': Store, o: OpId) { Framed(s, s', o) && Settled(s, s', o) }

  /** Only the operation `o` and the queues differ, apart from the numbers of the quota. */
  ghost predicate Bookkeeping(s: Store, s': Store, o: OpId) {
    && s'.limits == s.limits
    && o in s'.ops && s'.ops == s.ops[o := s'.ops[o]]
    && (forall k :: QueuesStep(Queue(s, k), Queue(s', k), o))
    && QueuesStep(s.tombstoneQueue, s'.tombstoneQueue, o)
  }

  ghost predicate OpSettled(s: Store, s': Store, o: OpId) {
    && o in s'.ops && OpOk(s', o, s'.ops[o])
    && (InsideOf(s', s'.ops[o]).Some? ==> AtHead(s', InsideOf(s', s'.ops[o]).value, o))
    && (InsideTomb(s'.ops[o]) ==> AtTombHead(s', o))
  }

  ghost predicate SameKiller(s: Store, s': Store, o: OpId) {
    forall e :: KilledBy(s', o, e) <==> KilledBy(s, o, e)
  }

  /** Actions that move only the program counter, the queues and the quota numbers. */
  ghost predicate Local(s: Store, s': Store, o: OpId) {
    && Bookkeeping(s, s', o) && OpSettled(s, s', o) && SameKiller(s, s', o)
    && s'.heap == s.heap && s'.entries == s.entries && s'.disk == s.disk && s'.tombstones == s.tombstones
    && s'.tokens == s.tokens
  }

  lemma LocalSteps(s: Store, s': Store, o: OpId)
    requires EntriesInv(s) && DeleterInv(s) && Local(s, s', o)
    ensures Steps(s, s', o)
  {
    hide QuotaInv;
    forall k | k in s'.entries ensures EntryOk(s, k) {}
  }

  /** Actions of an operation that is inside the lock of an unregistered key and rebuilds its directory. */
  ghost predicate DiskLocal(s: Store, s': Store, o: OpId) {
    && Bookkeeping(s, s', o) && OpSettled(s, s', o) && SameKiller(s, s', o)
    && s'.heap == s.heap && s'.entries == s.entries && s'.tombstones == s.tombstones && s'.tokens == s.tokens
    && o in s.ops && Inside(s.ops[o]).Some?
    && var k := Inside(s.ops[o]).value;
    && AtHead(s, k, o) && k !in s.entries
    && forall k2 :: k2 != k ==> (k2 in s'.disk <==> k2 in s.disk) && (k2 in s.disk ==> s'.disk[k2] == s.disk[k2])
  }

  lemma DiskLocalSteps(s: Store, s': Store, o: OpId)
    requires EntriesInv(s) && DiskLocal(s, s', o)
    ensures Steps(s, s', o)
  {
    hide QuotaInv;
    forall k2 | k2 in s'.entries ensures EntryOk(s', k2) { assert EntryOk(s, k2); }
  }

  /** Actions inside the tombstone lock that drop tracked tombstones. */
  ghost predicate TombLocal(s: Store, s': Store, o: OpId) {
    && Bookkeeping(s, s', o) && OpSettled(s, s', o) && SameKiller(s, s', o)
    && s'.heap == s.heap && s'.entries == s.entries && s'.disk == s.disk && s'.tokens == s.tokens
    && s'.tombstones.Keys <= s.tombstones.Keys
  }

  lemma TombLocalSteps(s: Store, s': Store, o: OpId)
    requires EntriesInv(s) && DeleterInv(s) && TombLocal(s, s', o)
    ensures Steps(s, s', o)
  {
    hide QuotaInv;
    forall k | k in s'.entries ensures EntryOk(s', k) { assert EntryOk(s, k); }
  }

  /** The last step of a deletion whose entry is no longer registered. */
  ghost predicate Ending(s: Store, s': Store, o: OpId) {
    && Bookkeeping(s, s', o) && OpSettled(s, s', o)
    && s'.heap == s.heap && s'.entries == s.entries && s'.disk == s.disk && s'.tombstones == s.tombstones
    && s'.tokens.Keys == s.tokens.Keys
    && (forall t :: t in s.tokens ==> TokenStep(s, s', o, t))
    && (forall t :: t in s.tokens ==> s'.tokens[t] == s.tokens[t] || s'.tokens[t].phase == Released)
    && (forall e :: !KilledBy(s', o, e))
    && (forall k :: k in s.entries ==> !KilledBy(s, o, s.entries[k]))
  }

  lemma EndingSteps(s: Store, s': Store, o: OpId)
    requires EntriesInv(s) && DeleterInv(s) && Ending(s, s', o)
    ensures Steps(s, s', o)
  {
    hide QuotaInv;
    forall k | k in s'.entries ensures EntryOk(s', k) { assert EntryOk(s, k); }
  }

  predicate SameButCounters(en: Entry, en': Entry) { en' == en.(holds := en'.holds, pins := en'.pins) }

  /** Actions that change counters of entries and add handles, or lower them. */
  ghost predicate Counting(s: Store, s': Store, o: OpId) {
    && Bookkeeping(s, s', o) && OpSettled(s, s', o) && SameKiller(s, s', o)
    && s'.entries == s.entries && s'.disk == s.disk && s'.tombstones == s.tombstones
    && s'.heap.Keys == s.heap.Keys
    && (forall e :: e in s.heap ==> SameButCounters(s.heap[e], s'.heap[e]))
    && (forall t :: t in s.tokens ==> TokenStep(s, s', o, t))
    && (forall t :: t in s'.tokens ==>
          || TokenOk(s', s'.tokens[t])
          || (t in s.tokens && (s'.tokens[t].phase == s.tokens[t].phase ||
            !(s'.tokens[t].phase.Active? || s'.tokens[t].phase.Releasing?))))
  }

  lemma CountingSteps(s: Store, s': Store, o: OpId)
    requires EntriesInv(s) && Counting(s, s', o)
    ensures Steps(s, s', o)
  {
    hide QuotaInv;
    forall k2 | k2 in s'.entries ensures EntryOk(s', k2) { assert EntryOk(s, k2); }
  }

  // What an operation finds, as conditions that make sense of any state.

  predicate LeavesFailed(s: Store, o: OpId) {
    o in s.ops && s.ops[o].Deleting? && s.ops[o].stage.Leaving? && s.ops[o].stage.failed
  }

  predicate ForRelease(s: Store, o: OpId) {
    o in s.ops && (s.ops[o].Deleting? || s.ops[o].DeleteFailed?) && s.ops[o].why.ByRelease?
  }

  ghost predicate StillRegistered(s: Store, o: OpId) {
    o in s.ops && s.ops[o].DeleteFailed? && Registered(s, s.ops[o].key, s.ops[o].entry)
  }

  predicate Collectable(s: Store, o: OpId) {
    && o in s.ops && s.ops[o].GcQueued? && s.ops[o].entry in s.heap
    && s.heap[s.ops[o].entry].published && Unused(s.heap[s.ops[o].entry])
  }

  ghost predicate NoUsersOf(s: Store, o: OpId) { o in s.ops && s.ops[o].GcQueued? && NoUsers(s, s.ops[o].entry) }

  /** After this release nobody counts on the entry. */
  ghost predicate NoUsersLeft(s: Store, o: OpId) {
    o in s.ops && s.ops[o].ReleaseQueued? && s.ops[o].token in s.tokens
    && NoUsers(ReleaseEnter(s, o), s.tokens[s.ops[o].token].entry)
  }

  lemma CandidatesSame(s: Store, s': Store, cs: seq<(Key, EntryId)>)
    requires CandidatesOk(s, cs) && s'.entries == s.entries
    requires forall e :: e in s.heap ==>
      e in s'.heap && s'.heap[e].ref == s.heap[e].ref && (s.heap[e].deleting ==> s'.heap[e].deleting)
    ensures CandidatesOk(s', cs)
  {
    hide QuotaInv;
    forall c | c in cs ensures CandidateOk(s', c) { assert CandidateOk(s, c); }
  }

  // ---------------------------------------------------------------- staging

  lemma StageCallSteps(s: Store, o: OpId, ns: Namespace, expected: Option<nat>)
    requires CanStage(s, o, ns, expected)
    ensures var s' := StageCall(s, o, ns, expected); Local(s, s', o)
  {
    hide QuotaInv;
  }

  lemma StageFailSteps(s: Store, o: OpId)
    requires CanStageFail(s, o) && OpFine(s, o)
    ensures var s' := StageFail(s, o); Local(s, s', o) && Quiet(s, s', o)
  {
    hide QuotaInv;
  }

  lemma StageStreamedSteps(s: Store, o: OpId, ref: Ref)
    requires CanStageStreamed(s, o, ref) && OpFine(s, o)
    ensures var s' := StageStreamed(s, o, ref); Local(s, s', o) && Quiet(s, s', o)
  {
    hide QuotaInv;
  }

  lemma StageEnterCase(s: Store, o: OpId, aborted: bool) returns (op: Op, leaves: bool)
    requires CanStageEnter(s, o)
    ensures !op.Deleting? && !op.DeleteFailed? && AtHead(s, ContentKey(s.ops[o].ref), o) && !s.ops[o].Deleting?
    ensures StageEnter(s, o, aborted) ==
      if leaves then Dequeue(Become(s, o, op), ContentKey(s.ops[o].ref)) else Become(s, o, op)
    ensures !s.ops[o].DeleteFailed?
    ensures var StageQueued(ref, reserved) := s.ops[o]; var k := ContentKey(ref);
      if leaves then op == StageUnwinding(reserved)
      else if k in s.entries && s.entries[k] in s.heap then
        op == StageVerifying(ref, reserved, s.entries[k])
        && !s.heap[s.entries[k]].deleting && s.heap[s.entries[k]].ref == ref
      else op == StageBuilding(ref, reserved, NoDirectory)
  {
    hide Become, Dequeue;
    var StageQueued(ref, reserved) := s.ops[o];
    var k := ContentKey(ref);
    op, leaves := StageUnwinding(reserved), true;
    if aborted {
    } else if k in s.entries && s.entries[k] in s.heap {
      var e := s.entries[k];
      if !s.heap[e].deleting && s.heap[e].ref == ref { op, leaves := StageVerifying(ref, reserved, e), false; }
    } else {
      op, leaves := StageBuilding(ref, reserved, NoDirectory), false;
    }
  }

  predicate Plain(op: Op) { !op.Deleting? && !op.DeleteFailed? && !op.Pinning? }

  predicate SameShare(a: Op, b: Op) { Reserves(a) == Reserves(b) && (Reserves(a) ==> a.reserved == b.reserved) }

  /** An operation that moves on inside its lock or outside of any, with everything else as it is. */
  lemma Moves(s: Store, o: OpId, op: Op)
    requires o in s.ops && Plain(s.ops[o]) && Plain(op) && SameShare(s.ops[o], op)
    requires OpOk(Become(s, o, op), o, op) && !InsideTomb(op)
    requires InsideOf(s, op).Some? ==> AtHead(s, InsideOf(s, op).value, o)
    ensures var s' := Become(s, o, op); Local(s, s', o) && Quiet(s, s', o)
  {
    hide OpOk, ContentKey;
  }

  /** The same, leaving the lock it heads. */
  lemma Leaves(s: Store, o: OpId, op: Op, k: Key)
    requires o in s.ops && Plain(s.ops[o]) && Plain(op) && SameShare(s.ops[o], op) && AtHead(s, k, o)
    requires OpOk(Dequeue(Become(s, o, op), k), o, op) && !InsideTomb(op) && InsideOf(s, op).None?
    ensures var s' := Dequeue(Become(s, o, op), k); Local(s, s', o) && Quiet(s, s', o)
  {
    hide OpOk, ContentKey;
  }

  /** The same, joining a queue. */
  lemma Joins(s: Store, o: OpId, op: Op, k: Key)
    requires o in s.ops && Plain(s.ops[o]) && Plain(op) && SameShare(s.ops[o], op)
    requires OpOk(Enqueue(Become(s, o, op), k, o), o, op) && !InsideTomb(op) && InsideOf(s, op).None?
    ensures var s' := Enqueue(Become(s, o, op), k, o); Local(s, s', o) && Quiet(s, s', o)
  {
    hide OpOk, ContentKey;
  }

  /** What `OpOk` says where an operation waits for its turn or has just got it. */
  lemma OpOkIs(s: Store, o: OpId, op: Op)
    ensures op.StageQueued? ==> (OpOk(s, o, op) <==> op.ref.byteLength <= op.reserved)
    ensures op.StageVerifying? ==>
      (OpOk(s, o, op) <==>
        op.ref.byteLength <= op.reserved && Steady(s, ContentKey(op.ref), op.entry) && s.heap[op.entry].ref == op.ref)
    ensures op.StageBuilding? && op.progress.NoDirectory? ==>
      (OpOk(s, o, op) <==> op.ref.byteLength <= op.reserved && ContentKey(op.ref) !in s.entries)
    ensures op.StageBuilding? && OpOk(s, o, op) ==> ContentKey(op.ref) !in s.entries
    ensures op.StageCleaning? ==> (OpOk(s, o, op) <==> ContentKey(op.ref) !in s.entries)
    ensures op.StageUnwinding? || op.Finished? ==> OpOk(s, o, op)
    ensures op.HoldVerifying? ==>
      (OpOk(s, o, op) <==>
        Steady(s, ContentKey(op.ref), op.entry) && s.heap[op.entry].ref == op.ref && s.heap[op.entry].published)
    ensures op.PublishQueued? ==>
      (OpOk(s, o, op) <==> op.token in s.tokens && s.tokens[op.token].kind == HoldToken)
    ensures op.PublishVerifying? || op.PublishWriting? ==> (OpOk(s, o, op) <==> PublishOk(s, op.token, op.entry))
  {
    hide Steady, CandidatesOk, CandidateOk, OnDisk, DyingOk, PublishOk;
    match op
    case StageQueued(ref, reserved) =>
    case StageVerifying(ref, reserved, e) =>
    case StageBuilding(ref, reserved, p) =>
    case StageCleaning(ref, reserved) =>
    case StageUnwinding(reserved) =>
    case HoldVerifying(ref, e) =>
    case PublishQueued(t) =>
    case PublishVerifying(t, e) =>
    case PublishWriting(t, e) =>
    case Finished =>
    case _ =>
  }

  lemma StageEnterSteps(s: Store, o: OpId, aborted: bool)
    requires CanStageEnter(s, o) && OpFine(s, o)
    requires EntriesInv(s)
    ensures var s' := StageEnter(s, o, aborted); Local(s, s', o) && Quiet(s, s', o)
  {
    hide StageEnter, OpOk, Local, Quiet, OnDisk;
    var k := ContentKey(s.ops[o].ref);
    var op, leaves := StageEnterCase(s, o, aborted);
    OpOkIs(s, o, s.ops[o]);
    OpOkIs(StageEnter(s, o, aborted), o, op);
    if leaves {
      Leaves(s, o, op, k);
    } else {
      if k in s.entries { assert EntryOk(s, k); }
      Moves(s, o, op);
    }
  }

  lemma StageRefusedSteps(s: Store, o: OpId, t: TokenId)
    requires CanStageVerified(s, o, t) && OpFine(s, o)
    ensures var s' := StageVerified(s, o, false, t); Local(s, s', o) && Quiet(s, s', o)
  {
    hide QuotaInv;
    var s' := StageVerified(s, o, false, t);
    assert s'.ops[o] == StageUnwinding(s.ops[o].reserved);
  }

  lemma StageVerifiedSteps(s: Store, o: OpId, t: TokenId)
    requires CanStageVerified(s, o, t) && OpFine(s, o)
    ensures var s' := StageVerified(s, o, true, t); Counting(s, s', o)
  {
    hide StageVerified;
    StageVerifiedShape(s, o, t);
  }

  lemma StageVerifiedShape(s: Store, o: OpId, t: TokenId)
    requires CanStageVerified(s, o, t)
    ensures var s' := StageVerified(s, o, true, t); var e := s.ops[o].entry; var k := ContentKey(s.ops[o].ref);
      && s'.ops == s.ops[o := Finished] && s'.limits == s.limits && s'.entries == s.entries && s'.disk == s.disk
      && s'.tombstones == s.tombstones && s'.tombstoneQueue == s.tombstoneQueue
      && s'.digestQueues == s.digestQueues[k := Queue(s, k)[1..]]
      && s'.heap == s.heap[e := s.heap[e].(holds := s.heap[e].holds + 1)]
      && s'.tokens == s.tokens[t := Token(HoldToken, ContentKey(s.heap[e].ref), e, Active)]
  {
    hide QuotaInv;
  }

  lemma StageBuildQuiet(s: Store, o: OpId)
    requires CanStageBuild(s, o)
    ensures Quiet(s, StageBuild(s, o), o)
  {
    hide QuotaInv;
    match s.ops[o].progress {
      case NoDirectory =>
      case DirectoryMade =>
      case _ =>
    }
  }

  lemma StageBuildSteps(s: Store, o: OpId)
    requires CanStageBuild(s, o) && OpFine(s, o)
    ensures var s' := StageBuild(s, o); DiskLocal(s, s', o)
  {
    hide Bookkeeping, SameKiller, OpSettled;
    StageBuildBook(s, o);
    StageBuildOp(s, o);
  }

  lemma StageBuildBook(s: Store, o: OpId)
    requires CanStageBuild(s, o)
    ensures var s' := StageBuild(s, o);
            && Bookkeeping(s, s', o) && SameKiller(s, s', o)
            && s'.heap == s.heap && s'.entries == s.entries && s'.tombstones == s.tombstones && s'.tokens == s.tokens
  {
    hide NextProgress, BlobAt;
    var s' := StageBuild(s, o);
    assert s'.ops[o].StageBuilding? && s'.digestQueues == s.digestQueues;
  }

  lemma StageBuildOp(s: Store, o: OpId)
    requires CanStageBuild(s, o) && OpFine(s, o)
    ensures o in StageBuild(s, o).ops && OpSettled(s, StageBuild(s, o), o)
  {
    hide QuotaInv;
  }

  lemma StageCommitFramed(s: Store, o: OpId, e: EntryId, t: TokenId)
    requires CanStageCommit(s, o, e, t) && OpFine(s, o)
    ensures var s' := StageCommit(s, o, e, t); Framed(s, s', o)
  {
    hide StageCommit, OnDisk, TokenOk;
    StageCommitShape(s, o, e, t);
    StageCommitFacts(s, o, e, t);
  }

  lemma StageCommitSettled(s: Store, o: OpId, e: EntryId, t: TokenId)
    requires CanStageCommit(s, o, e, t) && OpFine(s, o)
    requires RegistryWf(s)
    ensures var s' := StageCommit(s, o, e, t); Settled(s, s', o)
  {
    hide StageCommit, OpOk, InsideOf, InsideTomb, AtHead, AtTombHead, CanStageCommit, TokenOk, EntryOk;
    StageCommitShape(s, o, e, t);
    StageCommitFacts(s, o, e, t);
    StageCommitNew(s, o, e, t);
    FinishedSettled(s, StageCommit(s, o, e, t), o);
  }

  /** The new handle and the new entry. */
  lemma StageCommitNew(s: Store, o: OpId, e: EntryId, t: TokenId)
    requires CanStageCommit(s, o, e, t) && OpFine(s, o)
    ensures var s' := StageCommit(s, o, e, t); var k := ContentKey(s.ops[o].ref);
      && t in s'.tokens && TokenOk(s', s'.tokens[t]) && k in s'.entries && EntryOk(s', k)
  {
    hide StageCommit;
    StageCommitShape(s, o, e, t);
    StageCommitFacts(s, o, e, t);
  }

  lemma StageCommitFacts(s: Store, o: OpId, e: EntryId, t: TokenId)
    requires CanStageCommit(s, o, e, t) && OpFine(s, o)
    ensures o in s.ops && s.ops[o].StageBuilding? && e !in s.heap && t !in s.tokens
    ensures var k := ContentKey(s.ops[o].ref);
      k in s.disk && s.disk[k] == Blob(Some(s.ops[o].ref), Some((s.ops[o].ref, false)))
  {
    hide QuotaInv;
  }

  /** An operation that has finished owes nothing. */
  lemma FinishedSettled(s: Store, s': Store, o: OpId)
    requires o in s'.ops && s'.ops[o] == Finished
    ensures OpSettled(s, s', o)
  {
    hide QuotaInv;
  }

  lemma StageCommitShape(s: Store, o: OpId, e: EntryId, t: TokenId)
    requires CanStageCommit(s, o, e, t)
    ensures var s' := StageCommit(s, o, e, t); var ref := s.ops[o].ref; var k := ContentKey(ref);
      && s'.ops == s.ops[o := Finished] && s'.limits == s.limits && s'.entries == s.entries[k := e]
      && s'.disk == s.disk && s'.tombstones == s.tombstones && s'.tombstoneQueue == s.tombstoneQueue
      && s'.digestQueues == s.digestQueues[k := Queue(s, k)[1..]]
      && s'.heap == s.heap[e := Entry(ref, false, 1, 0, false)]
      && s'.tokens == s.tokens[t := Token(HoldToken, k, e, Active)]
  {
    hide QuotaInv;
  }

  lemma StageBuildFailSteps(s: Store, o: OpId)
    requires CanStageBuildFail(s, o) && OpFine(s, o)
    ensures var s' := StageBuildFail(s, o); Local(s, s', o) && Quiet(s, s', o)
  {
    hide OpOk, Local, Quiet, Steady;
    var StageBuilding(ref, reserved, p) := s.ops[o];
    var s' := StageBuildFail(s, o);
    if p.NoDirectory? {
      OpOkIs(s', o, StageUnwinding(reserved));
      Leaves(s, o, StageUnwinding(reserved), ContentKey(ref));
    } else {
      OpOkIs(s, o, s.ops[o]);
      OpOkIs(s', o, StageCleaning(ref, reserved));
      Moves(s, o, StageCleaning(ref, reserved));
    }
  }

  lemma StageCleanedSteps(s: Store, o: OpId, removed: bool)
    requires CanStageCleaned(s, o) && OpFine(s, o)
    ensures var s' := StageCleaned(s, o, removed); DiskLocal(s, s', o) && Quiet(s, s', o)
  {
    hide QuotaInv;
  }

  lemma StageUnwindSteps(s: Store, o: OpId)
    requires CanStageUnwind(s, o) && OpFine(s, o)
    ensures var s' := StageUnwind(s, o); Local(s, s', o)
  {
    hide QuotaInv;
  }

  // ---------------------------------------------------------------- handles

  lemma PublishCallSteps(s: Store, o: OpId, t: TokenId)
    requires CanPublishCall(s, o, t)
    ensures var s' := PublishCall(s, o, t); Local(s, s', o) && Quiet(s, s', o)
  {
    hide QuotaInv;
  }

  lemma PublishEnterSteps(s: Store, o: OpId)
    requires CanPublishEnter(s, o) && OpFine(s, o)
    requires EntriesInv(s)
    ensures var s' := PublishEnter(s, o); Local(s, s', o) && Quiet(s, s', o)
  {
    hide OpOk, Local, Quiet, OnDisk;
    var t, s' := s.ops[o].token, PublishEnter(s, o);
    var k := s.tokens[t].key;
    OpOkIs(s, o, s.ops[o]);
    if s'.ops[o].PublishVerifying? {
      assert EntryOk(s, k);
      OpOkIs(s', o, s'.ops[o]);
      Moves(s, o, s'.ops[o]);
    } else {
      OpOkIs(s', o, Finished);
      Leaves(s, o, Finished, k);
    }
  }

  lemma PublishVerifiedSteps(s: Store, o: OpId, ok: bool)
    requires CanPublishVerified(s, o) && OpFine(s, o)
    ensures var s' := PublishVerified(s, o, ok); Local(s, s', o) && Quiet(s, s', o)
  {
    hide OpOk, Local, Quiet, OnDisk;
    var PublishVerifying(t, e) := s.ops[o];
    var s' := PublishVerified(s, o, ok);
    OpOkIs(s, o, s.ops[o]);
    OpOkIs(s', o, s'.ops[o]);
    if ok {
      Moves(s, o, PublishWriting(t, e));
    } else {
      Leaves(s, o, Finished, s.tokens[t].key);
    }
  }

  lemma PublishWriteShape(s: Store, o: OpId, ok: bool)
    requires CanPublishWrite(s, o)
    ensures var s', k := PublishWrite(s, o, ok), s.tokens[s.ops[o].token].key;
            && s'.heap == s.heap && s'.entries == s.entries && s'.tokens == s.tokens && s'.limits == s.limits
            && s'.tombstones == s.tombstones && s'.tombstoneQueue == s.tombstoneQueue
            && o in s'.ops && s'.ops == s.ops[o := s'.ops[o]] && !s'.ops[o].ReleaseQueued?
            && (s'.digestQueues == s.digestQueues || s'.digestQueues == s.digestQueues[k := Queue(s, k)[1..]])
            && (s'.disk == s.disk
                || (k in s.disk
                    && s'.disk == s.disk[k := s.disk[k].(manifest := Some((s.heap[s.ops[o].entry].ref, true)))]))
  {
    hide ContentKey;
    if ok && s.tokens[s.ops[o].token].key in s.disk {} else {}
  }

  lemma PublishWriteFramed(s: Store, o: OpId, ok: bool)
    requires CanPublishWrite(s, o) && OpFine(s, o) && EntriesInv(s)
    ensures var s' := PublishWrite(s, o, ok); Framed(s, s', o)
  {
    hide CandidatesOk, CandidateOk, PublishWrite;
    PublishWriteShape(s, o, ok);
    assert EntryOk(s, s.tokens[s.ops[o].token].key);
  }

  lemma PublishWriteOp(s: Store, o: OpId, ok: bool)
    requires CanPublishWrite(s, o) && OpFine(s, o) && EntriesInv(s)
    ensures var s' := PublishWrite(s, o, ok); OpSettled(s, s', o)
  {
    hide CandidatesOk, QuotaInv, CandidateOk;
    assert EntryOk(s, s.tokens[s.ops[o].token].key);
  }

  lemma PublishWriteSettled(s: Store, o: OpId, ok: bool)
    requires CanPublishWrite(s, o) && OpFine(s, o) && EntriesInv(s)
    requires RegistryWf(s)
    ensures var s' := PublishWrite(s, o, ok); Settled(s, s', o)
  {
    hide CandidatesOk, QuotaInv, AtTombHead, AtHead, InsideOf, InsideTomb;
    PublishWriteOp(s, o, ok);
    assert EntryOk(s, s.tokens[s.ops[o].token].key);
  }

  lemma PublishDoneFramed(s: Store, o: OpId)
    requires CanPublishDone(s, o) && OpFine(s, o)
    ensures var s' := PublishDone(s, o); Framed(s, s', o)
  {
    hide QuotaInv;
  }

  lemma PublishDoneSettled(s: Store, o: OpId)
    requires CanPublishDone(s, o) && OpFine(s, o)
    requires RegistryWf(s)
    ensures var s' := PublishDone(s, o); Settled(s, s', o)
  {
    hide QuotaInv;
  }

  lemma PinCallSteps(s: Store, o: OpId, ref: Ref)
    requires CanPinCall(s, o, ref)
    ensures var s' := PinCall(s, o, ref); Counting(s, s', o)
  {
    hide QuotaInv;
  }

  lemma PinOpenedSteps(s: Store, o: OpId, t: TokenId)
    requires CanPinOpened(s, o, t) && OpFine(s, o)
    ensures var s' := PinOpened(s, o, t); Counting(s, s', o)
  {
    hide QuotaInv;
  }

  lemma PinFailSteps(s: Store, o: OpId)
    requires CanPinFail(s, o) && OpFine(s, o)
    ensures var s' := PinFail(s, o); Counting(s, s', o)
  {
    hide QuotaInv;
  }

  lemma HoldCallSteps(s: Store, o: OpId, ref: Ref)
    requires CanHoldCall(s, o)
    ensures var s' := HoldCall(s, o, ref); Local(s, s', o) && Quiet(s, s', o)
  {
    hide QuotaInv;
  }

  lemma HoldEnterCase(s: Store, o: OpId) returns (op: Op, leaves: bool)
    requires CanHoldEnter(s, o)
    ensures var ref := s.ops[o].ref; var k := ContentKey(ref);
      if leaves then op == Finished
      else
        k in s.entries && s.entries[k] in s.heap && !s.heap[s.entries[k]].deleting && s.heap[s.entries[k]].ref == ref
        && s.heap[s.entries[k]].published && op == HoldVerifying(ref, s.entries[k])
    ensures HoldEnter(s, o) == if leaves then Dequeue(Become(s, o, op), ContentKey(s.ops[o].ref)) else Become(s, o, op)
  {
    hide Become, Dequeue;
    var ref := s.ops[o].ref;
    var k := ContentKey(ref);
    op, leaves := Finished, true;
    if k in s.entries && s.entries[k] in s.heap && !s.heap[s.entries[k]].deleting
       && s.heap[s.entries[k]].ref == ref && s.heap[s.entries[k]].published
    {
      op, leaves := HoldVerifying(ref, s.entries[k]), false;
    }
  }

  lemma HoldEnterSteps(s: Store, o: OpId)
    requires CanHoldEnter(s, o) && EntriesInv(s)
    ensures var s' := HoldEnter(s, o); Local(s, s', o) && Quiet(s, s', o)
  {
    hide HoldEnter, OpOk, Local, Quiet, OnDisk;
    var s', k := HoldEnter(s, o), ContentKey(s.ops[o].ref);
    var op, leaves := HoldEnterCase(s, o);
    OpOkIs(s', o, op);
    if leaves {
      Leaves(s, o, op, k);
    } else {
      assert EntryOk(s, k);
      Moves(s, o, op);
    }
  }

  lemma HoldVerifiedSteps(s: Store, o: OpId, ok: bool, t: TokenId)
    requires CanHoldVerified(s, o, t) && OpFine(s, o)
    ensures var s' := HoldVerified(s, o, ok, t); Counting(s, s', o)
  {
    hide HoldVerified, CandidatesOk;
    HoldVerifiedShape(s, o, ok, t);
  }

  lemma HoldVerifiedShape(s: Store, o: OpId, ok: bool, t: TokenId)
    requires CanHoldVerified(s, o, t) && OpFine(s, o)
    ensures var s' := HoldVerified(s, o, ok, t); var HoldVerifying(ref, e) := s.ops[o];
            && s'.ops == s.ops[o := Finished] && s'.limits == s.limits && s'.entries == s.entries && s'.disk == s.disk
            && s'.tombstones == s.tombstones && s'.tombstoneQueue == s.tombstoneQueue
            && AtHead(s, ContentKey(ref), o)
            && s'.digestQueues == s.digestQueues[ContentKey(ref) := Queue(s, ContentKey(ref))[1..]]
            && e in s.heap && t !in s.tokens && Steady(s, ContentKey(ref), e) && s.heap[e].ref == ref
            && (ok ==> s'.heap == s.heap[e := s.heap[e].(holds := s.heap[e].holds + 1)]
                       && s'.tokens == s.tokens[t := Token(HoldToken, ContentKey(ref), e, Active)])
            && (!ok ==> s'.heap == s.heap && s'.tokens == s.tokens)
  {
    hide QuotaInv;
    if ok {} else {}
  }

  lemma ReleaseCallBook(s: Store, o: OpId, t: TokenId)
    requires CanReleaseCall(s, o, t)
    ensures var s' := ReleaseCall(s, o, t); Bookkeeping(s, s', o) && OpSettled(s, s', o)
  {
    hide CandidatesOk, CandidateOk, OnDisk, Steady, DyingOk, PublishOk;
  }

  lemma ReleaseCallSteps(s: Store, o: OpId, t: TokenId)
    requires CanReleaseCall(s, o, t) && TokensInv(s)
    ensures var s' := ReleaseCall(s, o, t); Counting(s, s', o)
  {
    hide Bookkeeping, OpSettled, OnDisk;
    ReleaseCallBook(s, o, t);
  }

  /** Does this release go on to delete the entry? */
  ghost predicate LastRelease(s: Store, o: OpId) {
    && CanReleaseEnter(s, o)
    && var tok := s.tokens[s.ops[o].token];
    && tok.key in s.entries && s.entries[tok.key] in s.heap
    && var en := Lowered(s.heap[s.entries[tok.key]], tok.kind);
    && !en.published && Unused(en)
  }

  /** A release that is not the last one lowers its counter and is done. */
  lemma ReleaseEnterShape(s: Store, o: OpId)
    requires CanReleaseEnter(s, o) && OpFine(s, o) && TokensInv(s) && !LastRelease(s, o)
    ensures var s' := ReleaseEnter(s, o); var t := s.ops[o].token; var tok := s.tokens[t]; var e := tok.entry;
            && t in s.tokens && s.ops[o].ReleaseQueued? && e in s.heap && Steady(s, tok.key, e)
            && AtHead(s, tok.key, o) && tok.phase == Releasing(o)
            && s'.ops == s.ops[o := Finished] && s'.limits == s.limits && s'.entries == s.entries && s'.disk == s.disk
            && s'.tombstones == s.tombstones && s'.tombstoneQueue == s.tombstoneQueue
            && s'.digestQueues == s.digestQueues[tok.key := Queue(s, tok.key)[1..]]
            && s'.tokens == s.tokens[t := tok.(phase := Released)]
            && s'.heap == s.heap[e := Lowered(s.heap[e], tok.kind)]
  {
    hide CandidatesOk, OnDisk, QuotaInv, Lowered, Unused;
  }

  lemma ReleaseEnterSteps(s: Store, o: OpId)
    requires CanReleaseEnter(s, o) && OpFine(s, o) && TokensInv(s) && !LastRelease(s, o)
    ensures var s' := ReleaseEnter(s, o); Counting(s, s', o)
  {
    hide ReleaseEnter, LastRelease, OpFine, TokensInv, OnDisk, CanReleaseEnter;
    ReleaseEnterShape(s, o);
  }

  /** Where it is the last one, the handle is the only thing counted on its entry. */
  lemma LastReleaseCounts(s: Store, o: OpId)
    requires CanReleaseEnter(s, o) && OpFine(s, o) && TokensInv(s) && CountsInv(s) && LastRelease(s, o)
    ensures var t := s.ops[o].token; var e := s.tokens[t].entry;
      && s.tokens[t].kind == HoldToken && s.entries[s.tokens[t].key] == e && e in s.heap
      && CountedTokens(s.tokens, PinToken, e) == {} && PinsInFlight(s.ops, e) == {}
      && t in CountedTokens(s.tokens, HoldToken, e) && |CountedTokens(s.tokens, HoldToken, e)| == 1
  {
    hide PinsInFlight;
    var t := s.ops[o].token;
    var e := s.tokens[t].entry;
    assert TokenOk(s, s.tokens[t]);
    assert CountOk(s, e);
    assert t in CountedTokens(s.tokens, s.tokens[t].kind, e);
  }

  /** The last hold of unpublished content: nobody else counts on the entry. */
  lemma LastReleaseAlone(s: Store, o: OpId)
    requires CanReleaseEnter(s, o) && OpFine(s, o) && TokensInv(s) && CountsInv(s) && LastRelease(s, o)
    ensures NoUsersLeft(s, o)
    ensures var t := s.ops[o].token; var e := s.tokens[t].entry;
            && s.tokens[t].kind == HoldToken
            && s.entries[s.tokens[t].key] == e
            && (forall t2 :: t2 in s.tokens && s.tokens[t2].entry == e && t2 != t ==>
                 !s.tokens[t2].phase.Active? && !s.tokens[t2].phase.Releasing?)
            && (forall o2 :: o2 in s.ops && s.ops[o2].Pinning? ==> s.ops[o2].entry != e)
  {
    hide OnDisk, CandidatesOk, QuotaInv, Unused, TokensInv;
    var t := s.ops[o].token;
    var e := s.tokens[t].entry;
    LastReleaseCounts(s, o);
    Singleton(CountedTokens(s.tokens, HoldToken, e), t);
    forall t2 | t2 in s.tokens && s.tokens[t2].entry == e && t2 != t
      ensures !s.tokens[t2].phase.Active? && !s.tokens[t2].phase.Releasing?
    {
      assert t2 !in CountedTokens(s.tokens, PinToken, e) && t2 !in CountedTokens(s.tokens, HoldToken, e);
    }
    forall o2 | o2 in s.ops && s.ops[o2].Pinning? ensures s.ops[o2].entry != e {
      assert o2 !in PinsInFlight(s.ops, e);
    }
  }

  lemma LastReleaseFramed(s: Store, o: OpId)
    requires CanReleaseEnter(s, o) && OpFine(s, o) && TokensInv(s) && LastRelease(s, o)
    requires NoUsersLeft(s, o)
    ensures var s' := ReleaseEnter(s, o); Framed(s, s', o)
  {
    hide ReleaseEnter, LastRelease, OpFine, TokensInv, OnDisk, CanReleaseEnter;
    LastReleaseShape(s, o);
  }

  lemma LastReleaseOp(s: Store, o: OpId)
    requires CanReleaseEnter(s, o) && OpFine(s, o) && TokensInv(s) && LastRelease(s, o) && EntriesInv(s)
    ensures OpSettled(s, ReleaseEnter(s, o), o)
  {
    hide ReleaseEnter, Unused, CandidatesOk, LastRelease, OpFine, TokensInv, CanReleaseEnter;
    LastReleaseShape(s, o);
    assert EntryOk(s, s.tokens[s.ops[o].token].key);
  }

  lemma LastReleaseSettled(s: Store, o: OpId)
    requires CanReleaseEnter(s, o) && OpFine(s, o) && TokensInv(s) && LastRelease(s, o)
    requires RegistryWf(s) && EntriesInv(s)
    ensures var s' := ReleaseEnter(s, o); Settled(s, s', o)
  {
    hide ReleaseEnter, Unused, CandidatesOk, LastRelease, OpFine, TokensInv, CanReleaseEnter, OpOk, AtHead, AtTombHead,
      InsideOf, InsideTomb, TokenOk, EntryOk, EntriesInv;
    LastReleaseShape(s, o);
    LastReleaseOp(s, o);
  }

  lemma LastReleaseShape(s: Store, o: OpId)
    requires CanReleaseEnter(s, o) && OpFine(s, o) && TokensInv(s) && LastRelease(s, o)
    ensures var s' := ReleaseEnter(s, o); var t := s.ops[o].token; var tok := s.tokens[t]; var e := tok.entry;
            && o in s.ops && t in s.tokens && s.ops[o].ReleaseQueued? && e in s.heap && !s.heap[e].deleting
            && Registered(s, tok.key, e) && AtHead(s, tok.key, o)
            && ContentKey(s.heap[e].ref) == tok.key && tok.phase == Releasing(o)
            && s'.ops == s.ops[o := Deleting(ByRelease(t), tok.key, e, Waiting)]
            && s'.tokens == s.tokens[t := tok.(phase := Removing(o))]
            && s'.heap == s.heap[e := Lowered(s.heap[e], tok.kind).(deleting := true)]
            && s'.entries == s.entries && s'.disk == s.disk && s'.digestQueues == s.digestQueues
            && s'.limits == s.limits && s'.tombstones == s.tombstones && s'.tombstoneQueue == s.tombstoneQueue + [o]
  {
    hide QuotaInv;
  }

  // ---------------------------------------------------------------- removal

  lemma DeleteEnterShape(s: Store, o: OpId)
    requires CanDeleteEnter(s, o)
    ensures var s' := DeleteEnter(s, o); var op := s.ops[o];
            && o in s.ops && op.Deleting? && op.stage.Waiting?
            && s'.ops == s.ops[o := op.(stage := if Here(s, op) then Renaming else Leaving(false))]
            && s'.tombstoneQueue == (if Here(s, op) then s.tombstoneQueue else s.tombstoneQueue[1..])
            && AtTombHead(s, o) && s'.limits == s.limits && s'.heap == s.heap && s'.entries == s.entries
            && s'.disk == s.disk && s'.tombstones == s.tombstones && s'.tokens == s.tokens
            && s'.digestQueues == s.digestQueues && s'.bytes == s.bytes && s'.items == s.items
            && s'.reservedBytes == s.reservedBytes && s'.reservedItems == s.reservedItems
  {
    hide QuotaInv;
    if Here(s, s.ops[o]) {} else {}
  }

  /** The key still names the entry to be deleted. */
  predicate Here(s: Store, op: Op) { op.Deleting? && op.key in s.entries && s.entries[op.key] == op.entry }

  lemma DeleteEnterBook(s: Store, o: OpId)
    requires CanDeleteEnter(s, o)
    ensures Bookkeeping(s, DeleteEnter(s, o), o) && SameKiller(s, DeleteEnter(s, o), o)
  {
    hide DeleteEnter, CanDeleteEnter, Here;
    DeleteEnterShape(s, o);
  }

  lemma SameOnDisk(s: Store, s': Store, k: Key, e: EntryId)
    requires s'.heap == s.heap && s'.disk == s.disk
    ensures OnDisk(s', k, e) == OnDisk(s, k, e)
  {
  }

  lemma DeleteEnterOp(s: Store, o: OpId)
    requires CanDeleteEnter(s, o) && OpFine(s, o)
    ensures OpSettled(s, DeleteEnter(s, o), o)
  {
    hide DeleteEnter, CanDeleteEnter, CandidatesOk, OnDisk;
    DeleteEnterShape(s, o);
    if s.ops[o].why.ByGc? { CandidatesSame(s, DeleteEnter(s, o), s.ops[o].why.rest); }
    SameOnDisk(s, DeleteEnter(s, o), s.ops[o].key, s.ops[o].entry);
    if Here(s, s.ops[o]) {} else {}
  }

  lemma DeleteEnterSteps(s: Store, o: OpId)
    requires CanDeleteEnter(s, o) && OpFine(s, o)
    ensures var s' := DeleteEnter(s, o); Local(s, s', o) && Quiet(s, s', o)
  {
    hide Bookkeeping, SameKiller, OpSettled, DeleteEnter, OpFine, CanDeleteEnter;
    DeleteEnterShape(s, o);
    DeleteEnterBook(s, o);
    DeleteEnterOp(s, o);
  }

  lemma DeleteRenameShape(s: Store, o: OpId, ok: bool, tomb: TombId)
    requires CanDeleteRename(s, o, tomb)
    ensures var s' := DeleteRename(s, o, ok, tomb);
            && s'.heap == s.heap && s'.entries == s.entries && s'.tokens == s.tokens && s'.limits == s.limits
            && s'.ops == s.ops[o := s.ops[o].(stage := if ok then Renamed(tomb) else Leaving(true))]
            && s'.disk == (if ok then s.disk - {s.ops[o].key} else s.disk) && s'.tombstones == s.tombstones
            && s'.digestQueues == s.digestQueues
            && s'.tombstoneQueue == if ok then s.tombstoneQueue else s.tombstoneQueue[1..]
  {
    hide QuotaInv;
    if ok {} else {}
  }

  lemma DeleteRenameFramed(s: Store, o: OpId, ok: bool, tomb: TombId)
    requires CanDeleteRename(s, o, tomb) && OpFine(s, o)
    ensures var s' := DeleteRename(s, o, ok, tomb); Framed(s, s', o)
  {
    hide DeleteRename, CandidatesOk, CandidateOk, OnDisk;
    DeleteRenameShape(s, o, ok, tomb);
    assert KilledBy(s, o, s.ops[o].entry);
  }

  lemma DeleteRenameSettled(s: Store, o: OpId, ok: bool, tomb: TombId)
    requires CanDeleteRename(s, o, tomb) && OpFine(s, o)
    requires RegistryWf(s)
    ensures var s' := DeleteRename(s, o, ok, tomb); Settled(s, s', o)
  {
    hide OpOk, AtHead, AtTombHead, InsideOf, InsideTomb, TokenOk, EntryOk, DeleteRename;
    DeleteRenameOp(s, o, ok, tomb);
    DeleteRenameShape(s, o, ok, tomb);
  }

  lemma DeleteRenameOp(s: Store, o: OpId, ok: bool, tomb: TombId)
    requires CanDeleteRename(s, o, tomb) && OpFine(s, o)
    ensures o in DeleteRename(s, o, ok, tomb).ops && OpSettled(s, DeleteRename(s, o, ok, tomb), o)
  {
    hide DeleteRename, CandidatesOk, CandidateOk, DyingOk;
    DeleteRenameShape(s, o, ok, tomb);
    DyingSame(s, DeleteRename(s, o, ok, tomb), o);
  }

  lemma DyingSame(s: Store, s': Store, o: OpId)
    requires o in s.ops && s.ops[o].Deleting? && OpOk(s, o, s.ops[o])
    requires s'.heap == s.heap && s'.entries == s.entries && s'.tokens == s.tokens
    ensures var Deleting(why, k, e, _) := s.ops[o]; DyingOk(s', o, why, k, e)
  {
    hide CandidatesOk, CandidateOk, OnDisk;
    if s.ops[o].why.ByGc? { CandidatesSame(s, s', s.ops[o].why.rest); }
  }

  lemma DeleteUnregisterFramed(s: Store, o: OpId)
    requires CanDeleteUnregister(s, o) && OpFine(s, o)
    ensures var s' := DeleteUnregister(s, o); Framed(s, s', o)
  {
    hide QuotaInv;
  }

  lemma DeleteUnregisterSettled(s: Store, o: OpId)
    requires CanDeleteUnregister(s, o) && OpFine(s, o)
    requires RegistryWf(s)
    ensures var s' := DeleteUnregister(s, o); Settled(s, s', o)
  {
    hide QuotaInv;
  }

  lemma DeleteRemoveSteps(s: Store, o: OpId, ok: bool)
    requires CanDeleteRemove(s, o) && OpFine(s, o)
    ensures var s' := DeleteRemove(s, o, ok); TombLocal(s, s', o)
  {
    hide Bookkeeping, SameKiller, OpSettled, DeleteRemove, OpOk;
    DeleteRemoveShape(s, o, ok);
    DeleteRemoveBook(s, o, ok);
    DeleteRemoveOp(s, o, ok);
  }

  lemma DeleteRemoveBook(s: Store, o: OpId, ok: bool)
    requires CanDeleteRemove(s, o)
    ensures Bookkeeping(s, DeleteRemove(s, o, ok), o) && SameKiller(s, DeleteRemove(s, o, ok), o)
  {
    var s' := DeleteRemove(s, o, ok);
    DeleteRemoveShape(s, o, ok);
    hide DeleteRemove;
    assert Bookkeeping(s, s', o) && SameKiller(s, s', o);
  }

  lemma DeleteRemoveShape(s: Store, o: OpId, ok: bool)
    requires CanDeleteRemove(s, o)
    ensures var s' := DeleteRemove(s, o, ok);
            && s'.ops == s.ops[o := s.ops[o].(stage := Leaving(!ok))] && s'.limits == s.limits && s'.tokens == s.tokens
            && s'.digestQueues == s.digestQueues && s'.tombstoneQueue == s.tombstoneQueue[1..] && s'.heap == s.heap
            && s'.entries == s.entries
            && s'.disk == s.disk && s'.tombstones.Keys <= s.tombstones.Keys
            && s'.reservedBytes == s.reservedBytes && s'.reservedItems == s.reservedItems
  {
    hide DropTomb;
    DropTombShape(s, s.ops[o].stage.tomb);
    if ok {} else {}
  }

  lemma DeleteRemoveOp(s: Store, o: OpId, ok: bool)
    requires CanDeleteRemove(s, o) && OpFine(s, o)
    ensures o in DeleteRemove(s, o, ok).ops && OpSettled(s, DeleteRemove(s, o, ok), o)
  {
    hide DropTomb, DeleteRemove;
    DeleteRemoveShape(s, o, ok);
    if s.ops[o].why.ByGc? { CandidatesSame(s, DeleteRemove(s, o, ok), s.ops[o].why.rest); }
  }

  lemma DeleteLeaveFailedSteps(s: Store, o: OpId)
    requires CanDeleteLeave(s, o) && OpFine(s, o) && LeavesFailed(s, o)
    ensures var s' := DeleteLeave(s, o); Local(s, s', o) && Quiet(s, s', o)
  {
    hide QuotaInv;
    var s' := DeleteLeave(s, o);
    assert s'.ops[o] == DeleteFailed(s.ops[o].why, s.ops[o].key, s.ops[o].entry);
    assert Bookkeeping(s, s', o) && SameKiller(s, s', o);
  }

  lemma DeleteLeaveReleaseBook(s: Store, o: OpId)
    requires CanDeleteLeave(s, o) && OpFine(s, o) && !LeavesFailed(s, o) && ForRelease(s, o)
    ensures var s' := DeleteLeave(s, o); s'.ops[o] == Finished && Bookkeeping(s, s', o)
  {
    hide CandidatesOk, OnDisk, QuotaInv, CandidateOk, AtTombHead;
  }

  lemma DeleteLeaveReleaseSteps(s: Store, o: OpId)
    requires CanDeleteLeave(s, o) && OpFine(s, o) && !LeavesFailed(s, o) && ForRelease(s, o)
    requires RegistryWf(s)
    ensures var s' := DeleteLeave(s, o); Ending(s, s', o) && Quiet(s, s', o)
  {
    hide CandidatesOk, OnDisk, QuotaInv, CandidateOk, AtTombHead, Bookkeeping;
    DeleteLeaveReleaseBook(s, o);
  }

  lemma DeleteLeaveGcSteps(s: Store, o: OpId)
    requires CanDeleteLeave(s, o) && OpFine(s, o) && !LeavesFailed(s, o) && !ForRelease(s, o)
    requires RegistryWf(s)
    ensures var s' := DeleteLeave(s, o); Ending(s, s', o) && Quiet(s, s', o)
  {
    hide Bookkeeping, OpSettled, OpOk, Quiet, RegistryWf;
    DeleteLeaveGcBook(s, o);
    DeleteLeaveGcKills(s, o);
  }

  lemma DeleteLeaveGcBook(s: Store, o: OpId)
    requires CanDeleteLeave(s, o) && OpFine(s, o) && !LeavesFailed(s, o) && !ForRelease(s, o)
    ensures var s' := DeleteLeave(s, o);
      Bookkeeping(s, s', o) && OpSettled(s, s', o) && Quiet(s, s', o) && s'.tokens == s.tokens
  {
    hide QuotaInv;
    CandidatesSame(s, DeleteLeave(s, o), s.ops[o].why.rest);
  }

  lemma DeleteLeaveGcKills(s: Store, o: OpId)
    requires CanDeleteLeave(s, o) && OpFine(s, o) && !LeavesFailed(s, o) && !ForRelease(s, o)
    requires RegistryWf(s)
    ensures forall e :: !KilledBy(DeleteLeave(s, o), o, e)
    ensures forall k :: k in s.entries ==> !KilledBy(s, o, s.entries[k])
  {
    hide QuotaInv;
  }

  /** The entry is gone: the catch clause has nothing to restore. */
  lemma DeleteCatchGoneQuiet(s: Store, o: OpId)
    requires CanDeleteCatch(s, o)
    ensures Quiet(s, DeleteCatch(s, o), o)
  {
    hide QuotaInv;
  }

  lemma DeleteCatchGoneSteps(s: Store, o: OpId)
    requires CanDeleteCatch(s, o) && OpFine(s, o) && !StillRegistered(s, o)
    requires RegistryWf(s)
    ensures var s' := DeleteCatch(s, o); Ending(s, s', o)
  {
    hide Bookkeeping, OpSettled, OpOk, KilledBy, TokenStep, RegistryWf;
    DeleteCatchGoneBook(s, o);
    DeleteCatchGoneKills(s, o);
  }

  lemma DeleteCatchGoneBook(s: Store, o: OpId)
    requires CanDeleteCatch(s, o) && OpFine(s, o) && !StillRegistered(s, o)
    ensures var s' := DeleteCatch(s, o);
            && Bookkeeping(s, s', o) && OpSettled(s, s', o) && s'.tokens.Keys == s.tokens.Keys
            && s'.heap == s.heap && s'.entries == s.entries && s'.disk == s.disk && s'.tombstones == s.tombstones
            && (forall t :: t in s.tokens ==> TokenStep(s, s', o, t))
            && (forall t :: t in s.tokens ==> s'.tokens[t] == s.tokens[t] || s'.tokens[t].phase == Released)
  {
    hide CandidatesOk, DeleteCatch, Bookkeeping, OpSettled;
    DeleteCatchGoneCase(s, o);
    DeleteCatchGoneOp(s, o);
    if s.ops[o].why.ByRelease? {} else {}
  }

  lemma DeleteCatchGoneOp(s: Store, o: OpId)
    requires CanDeleteCatch(s, o) && !StillRegistered(s, o)
    ensures Bookkeeping(s, DeleteCatch(s, o), o) && OpSettled(s, DeleteCatch(s, o), o)
  {
    hide OpOk, DeleteCatch;
    DeleteCatchGoneCase(s, o);
    OpOkIs(DeleteCatch(s, o), o, Finished);
  }

  lemma DeleteCatchGoneCase(s: Store, o: OpId)
    requires CanDeleteCatch(s, o) && !StillRegistered(s, o)
    ensures s.ops[o].why.ByRelease? ==> s.ops[o].why.token in s.tokens
    ensures DeleteCatch(s, o) ==
      Become(if s.ops[o].why.ByRelease? then SetPhase(s, s.ops[o].why.token, Released) else s, o, Finished)
  {
    hide Become, SetPhase;
  }

  lemma DeleteCatchGoneKills(s: Store, o: OpId)
    requires CanDeleteCatch(s, o) && OpFine(s, o) && !StillRegistered(s, o)
    requires RegistryWf(s)
    ensures forall e :: !KilledBy(DeleteCatch(s, o), o, e)
    ensures forall k :: k in s.entries ==> !KilledBy(s, o, s.entries[k])
  {
    hide QuotaInv;
    if s.ops[o].why.ByRelease? {} else {}
  }

  lemma DeleteCatchUndoFramed(s: Store, o: OpId)
    requires CanDeleteCatch(s, o) && OpFine(s, o) && StillRegistered(s, o)
    ensures var s' := DeleteCatch(s, o); Framed(s, s', o)
  {
    hide DeleteCatch, CandidatesOk;
    DeleteCatchUndoShape(s, o);
  }

  lemma DeleteCatchUndoSettled(s: Store, o: OpId)
    requires CanDeleteCatch(s, o) && OpFine(s, o) && StillRegistered(s, o)
    requires RegistryWf(s)
    requires TokensInv(s)
    ensures var s' := DeleteCatch(s, o); Settled(s, s', o)
  {
    hide DeleteCatch, CandidatesOk, InsideOf, InsideTomb, AtHead, AtTombHead, CanDeleteCatch, OpOk, TokenOk, EntryOk;
    DeleteCatchUndoShape(s, o);
    DeleteCatchUndoNew(s, o);
    FinishedSettled(s, DeleteCatch(s, o), o);
    if s.ops[o].why.ByRelease? {} else {}
  }

  /** The revived entry, and the handle that has it back. */
  lemma DeleteCatchUndoNew(s: Store, o: OpId)
    requires CanDeleteCatch(s, o) && OpFine(s, o) && StillRegistered(s, o)
    requires RegistryWf(s)
    requires TokensInv(s)
    ensures o in s.ops && s.ops[o].DeleteFailed? && s.ops[o].entry in s.heap
    ensures var s' := DeleteCatch(s, o); s.ops[o].key in s'.entries && EntryOk(s', s.ops[o].key)
    ensures s.ops[o].why.ByRelease? ==>
      var s' := DeleteCatch(s, o); var t := s.ops[o].why.token;
      t in s'.tokens && TokenOk(s', s'.tokens[t])
  {
    hide DeleteCatch, CandidatesOk;
    DeleteCatchUndoShape(s, o);
  }

  /** Undoing a deletion: the entry is alive again, and a release has its counter and handle back. */
  lemma DeleteCatchUndoShape(s: Store, o: OpId)
    requires CanDeleteCatch(s, o) && StillRegistered(s, o)
    ensures var s' := DeleteCatch(s, o); var e := s.ops[o].entry;
            && s'.ops == s.ops[o := Finished] && s'.limits == s.limits && s'.entries == s.entries
            && s'.tombstones == s.tombstones
            && s'.disk == s.disk && s'.digestQueues == s.digestQueues && s'.tombstoneQueue == s.tombstoneQueue
            && e in s'.heap && s'.heap == s.heap[e := s'.heap[e]] && !s'.heap[e].deleting
            && s'.heap[e].ref == s.heap[e].ref && s'.heap[e].published == s.heap[e].published
            && (s.ops[o].why.ByGc? ==> s'.tokens == s.tokens)
            && (s.ops[o].why.ByRelease? ==>
                  s'.tokens == s.tokens[s.ops[o].why.token := s.tokens[s.ops[o].why.token].(phase := Active)])
  {
    hide QuotaInv;
    if s.ops[o].why.ByRelease? {} else {}
  }

  lemma GcCallSteps(s: Store, o: OpId, candidates: seq<(Key, EntryId)>)
    requires CanGcCall(s, o, candidates) && EntriesInv(s)
    ensures var s' := GcCall(s, o, candidates); Local(s, s', o) && Quiet(s, s', o)
  {
    hide QuotaInv;
    forall c | c in candidates ensures CandidateOk(s, c) { assert IsCandidate(s, c) && EntryOk(s, c.0); }
  }

  lemma GcCleanEnterSteps(s: Store, o: OpId)
    requires CanGcCleanEnter(s, o) && OpFine(s, o)
    ensures var s' := GcCleanEnter(s, o); Local(s, s', o) && Quiet(s, s', o)
  {
    hide QuotaInv;
  }

  lemma GcCleanSteps(s: Store, o: OpId, tomb: TombId)
    requires CanGcClean(s, o, tomb) && OpFine(s, o)
    ensures var s' := GcClean(s, o, tomb, true); TombLocal(s, s', o)
  {
    hide Bookkeeping, SameKiller, OpSettled, DropTomb, OpOk;
    DropTombShape(s, tomb);
    GcCleanBook(s, o, tomb);
    GcCleanOp(s, o, tomb);
  }

  lemma GcCleanBook(s: Store, o: OpId, tomb: TombId)
    requires CanGcClean(s, o, tomb)
    ensures Bookkeeping(s, GcClean(s, o, tomb, true), o) && SameKiller(s, GcClean(s, o, tomb, true), o)
  {
    hide DropTomb;
    DropTombShape(s, tomb);
    assert s.ops == s.ops[o := s.ops[o]];
  }

  lemma GcCleanOp(s: Store, o: OpId, tomb: TombId)
    requires CanGcClean(s, o, tomb) && OpFine(s, o)
    ensures o in GcClean(s, o, tomb, true).ops && OpSettled(s, GcClean(s, o, tomb, true), o)
  {
    hide DropTomb, CandidatesOk;
    DropTombShape(s, tomb);
    CandidatesSame(s, GcClean(s, o, tomb, true), s.ops[o].candidates);
  }

  lemma GcCleanFailedSteps(s: Store, o: OpId, tomb: TombId)
    requires CanGcClean(s, o, tomb) && OpFine(s, o)
    ensures var s' := GcClean(s, o, tomb, false); Local(s, s', o) && Quiet(s, s', o)
  {
    hide QuotaInv;
    var s' := GcClean(s, o, tomb, false);
    assert s'.ops[o] == Finished && s'.digestQueues == s.digestQueues;
  }

  lemma GcCleanDoneSteps(s: Store, o: OpId)
    requires CanGcCleanDone(s, o) && OpFine(s, o)
    ensures var s' := GcCleanDone(s, o); Local(s, s', o) && Quiet(s, s', o)
  {
    hide QuotaInv;
  }

  lemma GcAdvanceSteps(s: Store, o: OpId)
    requires CanGcAdvance(s, o) && OpFine(s, o)
    ensures var s' := GcAdvance(s, o); Local(s, s', o) && Quiet(s, s', o)
  {
    hide Local, Quiet, CandidateOk, CandidatesOk;
    var cs, s' := s.ops[o].candidates, GcAdvance(s, o);
    if cs == [] {
      Moves(s, o, Finished);
    } else {
      CandidatesSame(s, s', cs);
      FirstCandidate(s', cs);
      assert (cs[0].0, cs[0].1) == cs[0];
      Joins(s, o, GcQueued(cs[0].0, cs[0].1, cs[1..]), cs[0].0);
    }
  }

  lemma FirstCandidate(s: Store, cs: seq<(Key, EntryId)>)
    requires CandidatesOk(s, cs) && cs != []
    ensures CandidateOk(s, cs[0]) && CandidatesOk(s, cs[1..])
  {
    assert cs[0] in cs;
  }

  lemma GcEnterSkipSteps(s: Store, o: OpId)
    requires CanGcEnter(s, o) && OpFine(s, o)
    requires !Collectable(s, o)
    ensures var s' := GcEnter(s, o); Local(s, s', o) && Quiet(s, s', o)
  {
    hide QuotaInv;
    var s' := GcEnter(s, o);
    CandidatesSame(s, s', s.ops[o].rest);
    assert s'.ops[o] == GcNext(s.ops[o].rest);
    assert Bookkeeping(s, s', o) && SameKiller(s, s', o);
  }

  lemma GcEnterFramed(s: Store, o: OpId)
    requires CanGcEnter(s, o) && OpFine(s, o)
    requires Collectable(s, o) && NoUsersOf(s, o)
    ensures var s' := GcEnter(s, o); Framed(s, s', o)
  {
    hide QuotaInv;
    var s' := GcEnter(s, o);
    assert NoUsers(s', s.ops[o].entry);
    assert Bookkeeping(s, s', o);
  }

  lemma GcEnterOp(s: Store, o: OpId)
    requires CanGcEnter(s, o) && OpFine(s, o) && RegistryWf(s) && Collectable(s, o) && EntriesInv(s)
    ensures OpSettled(s, GcEnter(s, o), o)
  {
    hide CandidatesOk, GcEnter, Unused, QuotaInv;
    GcEnterShape(s, o);
    CandidatesSame(s, GcEnter(s, o), s.ops[o].rest);
    if s.ops[o].key in s.entries { assert EntryOk(s, s.ops[o].key); }
  }

  lemma GcEnterSettled(s: Store, o: OpId)
    requires CanGcEnter(s, o) && OpFine(s, o) && RegistryWf(s)
    requires Collectable(s, o)
    requires EntriesInv(s)
    ensures var s' := GcEnter(s, o); Settled(s, s', o)
  {
    hide CandidatesOk, GcEnter, Unused, Collectable, QuotaInv, OpOk, AtHead, AtTombHead, InsideOf, InsideTomb, TokenOk,
      EntryOk, EntriesInv, OpFine, CanGcEnter;
    GcEnterShape(s, o);
    GcEnterOp(s, o);
  }

  lemma GcEnterShape(s: Store, o: OpId)
    requires CanGcEnter(s, o) && Collectable(s, o)
    ensures var s' := GcEnter(s, o); var GcQueued(k, e, rest) := s.ops[o];
            && o in s.ops && s.ops[o].GcQueued? && e in s.heap
            && s'.ops == s.ops[o := Deleting(ByGc(rest), k, e, Waiting)] && !s.heap[e].deleting && AtHead(s, k, o)
            && s'.heap == s.heap[e := s.heap[e].(deleting := true)]
            && s'.entries == s.entries && s'.tokens == s.tokens && s'.disk == s.disk
            && s'.digestQueues == s.digestQueues
  {
    hide QuotaInv;
  }

  // ---------------------------------------------------------------- counters

  function TokenWeight(tokens: map<TokenId, Token>, t: TokenId, kind: TokenKind, e: EntryId): int {
    if t in tokens && Counted(tokens[t], kind, e) then 1 else 0
  }

  function PinWeight(ops: map<OpId, Op>, o: OpId, e: EntryId): int {
    if o in ops && Pins(ops[o], e) then 1 else 0
  }

  lemma CountedUpdate(tokens: map<TokenId, Token>, t: TokenId, tok: Token, kind: TokenKind, e: EntryId)
    ensures var tokens' := tokens[t := tok];
            |CountedTokens(tokens', kind, e)| == |CountedTokens(tokens, kind, e)| - TokenWeight(tokens, t, kind, e) +
              TokenWeight(tokens', t, kind, e)
  {
    hide CountedTokens, TokenWeight;
    CountedSets(tokens, t, tok, kind, e);
    CardinalityWithout(CountedTokens(tokens, kind, e), t);
    CardinalityWithout(CountedTokens(tokens[t := tok], kind, e), t);
  }

  lemma CountedSets(tokens: map<TokenId, Token>, t: TokenId, tok: Token, kind: TokenKind, e: EntryId)
    ensures CountedTokens(tokens, kind, e) - {t} == CountedTokens(tokens[t := tok], kind, e) - {t}
    ensures TokenWeight(tokens, t, kind, e) == if t in CountedTokens(tokens, kind, e) then 1 else 0
    ensures TokenWeight(tokens[t := tok], t, kind, e) == if t in CountedTokens(tokens[t := tok], kind, e) then 1 else 0
  {
    hide Counted;
  }

  lemma PinsUpdate(ops: map<OpId, Op>, o: OpId, op: Op, e: EntryId)
    ensures var ops' := ops[o := op];
            |PinsInFlight(ops', e)| == |PinsInFlight(ops, e)| - PinWeight(ops, o, e) + PinWeight(ops', o, e)
  {
    hide PinsInFlight, PinWeight;
    PinSets(ops, o, op, e);
    CardinalityWithout(PinsInFlight(ops, e), o);
    CardinalityWithout(PinsInFlight(ops[o := op], e), o);
  }

  lemma PinSets(ops: map<OpId, Op>, o: OpId, op: Op, e: EntryId)
    ensures PinsInFlight(ops, e) - {o} == PinsInFlight(ops[o := op], e) - {o}
    ensures PinWeight(ops, o, e) == if o in PinsInFlight(ops, e) then 1 else 0
    ensures PinWeight(ops[o := op], o, e) == if o in PinsInFlight(ops[o := op], e) then 1 else 0
  {
    hide Pins;
  }

  /** Counters, reservations and usage of other operations are out of reach; here the acting one leaves
      them alone too. */
  ghost predicate Quiet(s: Store, s': Store, o: OpId) {
    && (o in s.ops ==> !s.ops[o].Pinning?) && o in s'.ops && !s'.ops[o].Pinning?
    && SameQuota(s, s', o)
  }

  ghost predicate SameQuota(s: Store, s': Store, o: OpId) {
    SameReservation(s, s', o) && s'.bytes == s.bytes && s'.items == s.items
  }

  /** Everything that is counted names an entry that exists. */
  lemma NothingCountedOnFresh(s: Store, e: EntryId)
    requires TokensInv(s) && OpsInv(s) && e !in s.heap
    ensures CountedTokens(s.tokens, HoldToken, e) == {} && CountedTokens(s.tokens, PinToken, e) == {}
    ensures PinsInFlight(s.ops, e) == {}
  {
    forall t | t in s.tokens ensures s.tokens[t].entry != e { assert TokenOk(s, s.tokens[t]); }
    forall o | o in s.ops && s.ops[o].Pinning? ensures s.ops[o].entry != e { assert OpOk(s, o, s.ops[o]); }
  }

  /** The counters of `e` moved exactly as the operation `o` and the handle `t` did. */
  ghost predicate CountersFollow(s: Store, s': Store, o: OpId, t: TokenId, e: EntryId) {
    && e in s'.heap
    && var holds := if e in s.heap then s.heap[e].holds else 0;
    var pins := if e in s.heap then s.heap[e].pins else 0;
    && s'.heap[e].holds == holds - TokenWeight(s.tokens, t, HoldToken, e) + TokenWeight(s'.tokens, t, HoldToken, e)
    && s'.heap[e].pins == pins - TokenWeight(s.tokens, t, PinToken, e) + TokenWeight(s'.tokens, t, PinToken, e)
                          - PinWeight(s.ops, o, e) + PinWeight(s'.ops, o, e)
    && (s'.heap[e].deleting ==> (e in s.heap && s.heap[e].deleting) || (s'.heap[e].holds == 0 && s'.heap[e].pins == 0))
    && (s'.heap[e].deleting && e in s.heap && s.heap[e].deleting ==>
         s'.heap[e].holds == holds && s'.heap[e].pins == pins)
  }

  ghost predicate Counts(s: Store, s': Store, o: OpId, t: TokenId) {
    && o in s'.ops && s'.ops == s.ops[o := s'.ops[o]]
    && (s'.tokens == s.tokens || (t in s'.tokens && s'.tokens == s.tokens[t := s'.tokens[t]]))
    && forall e :: e in s'.heap ==> CountersFollow(s, s', o, t, e)
  }

  lemma CountsKept(s: Store, s': Store, o: OpId, t: TokenId)
    requires CountsInv(s) && TokensInv(s) && OpsInv(s) && Counts(s, s', o, t)
    ensures CountsInv(s')
  {
    hide QuotaInv;
    forall e | e in s'.heap ensures CountOk(s', e) {
      assert CountersFollow(s, s', o, t, e);
      PinsUpdate(s.ops, o, s'.ops[o], e);
      if s'.tokens != s.tokens {
        CountedUpdate(s.tokens, t, s'.tokens[t], HoldToken, e);
        CountedUpdate(s.tokens, t, s'.tokens[t], PinToken, e);
      }
      if e in s.heap { assert CountOk(s, e); } else { NothingCountedOnFresh(s, e); }
    }
  }

  // ---------------------------------------------------------------- quota

  predicate HasReservation(s: Store, o: OpId) { o in s.ops && Reserves(s.ops[o]) }

  /** The operation `o` alone changed; its reservation, if any, is the same. */
  ghost predicate SameReservation(s: Store, s': Store, o: OpId) {
    && o in s'.ops && s'.ops == s.ops[o := s'.ops[o]]
    && HasReservation(s, o) == HasReservation(s', o)
    && (HasReservation(s, o) ==> s'.ops[o].reserved == s.ops[o].reserved)
    && s'.reservedBytes == s.reservedBytes && s'.reservedItems == s.reservedItems
  }

  ghost predicate SameSizes(s: Store, s': Store) {
    && s'.limits == s.limits && s'.entries == s.entries && s'.tombstones == s.tombstones
    && s'.bytes == s.bytes && s'.items == s.items
    && (forall e :: e in s.heap ==> e in s'.heap && s'.heap[e].ref == s.heap[e].ref)
    && RegistryWf(s)
  }

  lemma SizesSame(s: Store, s': Store)
    requires SameSizes(s, s')
    ensures EntrySizes(s') == EntrySizes(s)
  {
    hide QuotaInv;
  }

  lemma ReservationsSame(s: Store, s': Store, o: OpId)
    requires SameReservation(s, s', o)
    ensures Reservations(s') == Reservations(s)
  {
  }

  lemma SameNumbers(s: Store, s': Store, o: OpId)
    requires SameSizes(s, s') && SameReservation(s, s', o)
    ensures s'.limits == s.limits && s'.tombstones == s.tombstones && s'.bytes == s.bytes && s'.items == s.items
    ensures s'.reservedBytes == s.reservedBytes && s'.reservedItems == s.reservedItems
  {
    hide RegistryWf;
  }

  lemma QuotaSame(s: Store, s': Store, o: OpId)
    requires QuotaInv(s) && SameSizes(s, s') && SameReservation(s, s', o)
    ensures QuotaInv(s')
  {
    hide Sum, EntrySizes, Reservations, SameSizes, SameReservation;
    SameNumbers(s, s', o);
    SizesSame(s, s');
    ReservationsSame(s, s', o);
  }

  /** A reservation ends, as part of a commit or a rollback. */
  lemma ReservationEnds(s: Store, s': Store, o: OpId)
    requires HasReservation(s, o) && o in s'.ops && s'.ops == s.ops[o := s'.ops[o]] && !Reserves(s'.ops[o])
    ensures Sum(Reservations(s')) == Sum(Reservations(s)) - s.ops[o].reserved
    ensures |Reservations(s')| == |Reservations(s)| - 1
  {
    hide QuotaInv;
    SumDelete(Reservations(s), o);
    assert Reservations(s') == Reservations(s) - {o};
  }
}

/** Accounting of the transition payload ledger, as functions on values. */
module LedgerModel {
  import opened Prelude
  import opened ContentRefs

  const MAX_SAFE_INTEGER: nat := 9007199254740991

  type BoxId = nat

  datatype EntryState = Waiting | Routed | LetGo

  datatype LedgerEntry = LedgerEntry(box: BoxId, refs: seq<Ref>, state: EntryState)

  datatype LedgerState = LedgerOpen | Drained | DrainFailed | LedgerReleasing | LedgerReleased | LedgerReleaseFailed

  datatype LedgerLimits = LedgerLimits(physicalBytes: nat, physicalItems: nat, heldItems: nat, logicalBytes: nat)

  datatype Ledger = Ledger(
    limits: LedgerLimits,
    epoch: string,
    entries: seq<LedgerEntry>,
    physical: map<Key, Ref>,
    physicalBytes: nat,
    physicalItems: nat,
    heldItems: nat,
    logicalBytes: nat,
    adopted: nat,
    state: LedgerState)

  function NewLedger(limits: LedgerLimits, epoch: string): Ledger {
    Ledger(limits, epoch, [], map[], 0, 0, 0, 0, 0, LedgerOpen)
  }

  function SafeAdd(a: nat, b: nat): Option<nat> {
    if a + b <= MAX_SAFE_INTEGER then Some(a + b) else None
  }

  datatype Staged = Staged(refs: map<Key, Ref>, bytes: nat, items: nat)

  /** The reference-by-reference preflight over the first `n` references. */
  function StageRefs(l: Ledger, refs: seq<Ref>, n: nat): Option<Staged>
    requires n <= |refs|
  {
    if n == 0 then Some(Staged(map[], 0, 0))
    else
      match StageRefs(l, refs, n - 1)
      case None => None
      case Some(staged) =>
        var ref := refs[n - 1];
        var k := ContentKey(ref);
        if ref.serverEpoch != l.epoch then None
        else if k in l.physical || k in staged.refs then
          (if (if k in l.physical then l.physical[k] else staged.refs[k]) == ref then Some(staged) else None)
        else if SafeAdd(staged.bytes, ref.byteLength).None? || SafeAdd(staged.items, 1).None? then None
        else Some(Staged(staged.refs[k := ref], staged.bytes + ref.byteLength, staged.items + 1))
  }

  predicate Seen(l: Ledger, box: BoxId) { exists i :: 0 <= i < |l.entries| && l.entries[i].box == box }

  /** `None` is a thrown error; the ledger is then exactly as before. */
  function AdmitBytes(l: Ledger, bytes: nat): Option<Ledger> {
    if l.state != LedgerOpen || SafeAdd(l.logicalBytes, bytes).None? ||
      l.logicalBytes + bytes > l.limits.logicalBytes then
      None
    else Some(l.(logicalBytes := l.logicalBytes + bytes))
  }

  function AdmitTransfer(l: Ledger, box: BoxId, refs: seq<Ref>, bytes: nat): Option<Ledger> {
    if Seen(l, box) || AdmitBytes(l, bytes).None? then None
    else
      match StageRefs(l, refs, |refs|)
      case None => None
      case Some(staged) =>
        if && SafeAdd(l.physicalBytes, staged.bytes).Some? && l.physicalBytes + staged.bytes <= l.limits.physicalBytes
           && SafeAdd(l.physicalItems, staged.items).Some? && l.physicalItems + staged.items <= l.limits.physicalItems
           && SafeAdd(l.heldItems, |refs|).Some? && l.heldItems + |refs| <= l.limits.heldItems
        then Some(l.(
          entries := l.entries + [LedgerEntry(box, refs, Waiting)],
          physical := l.physical + staged.refs,
          physicalBytes := l.physicalBytes + staged.bytes,
          physicalItems := l.physicalItems + staged.items,
          heldItems := l.heldItems + |refs|,
          logicalBytes := l.logicalBytes + bytes))
        else None
  }

  // ---------------------------------------------------------------- what the counters mean

  function HeldRefs(entries: seq<LedgerEntry>): nat {
    if entries == [] then 0 else HeldRefs(entries[..|entries| - 1]) + |entries[|entries| - 1].refs|
  }

  ghost function Sizes(refs: map<Key, Ref>): map<Key, nat> { map k | k in refs :: refs[k].byteLength }

  predicate InEntries(entries: seq<LedgerEntry>, ref: Ref) {
    exists i :: 0 <= i < |entries| && ref in entries[i].refs
  }

  /** The reference map holds exactly the references of the entries, one per key. */
  ghost predicate Covers(epoch: string, entries: seq<LedgerEntry>, physical: map<Key, Ref>) {
    && (forall k :: k in physical ==> ContentKey(physical[k]) == k && InEntries(entries, physical[k]))
    && (forall i :: 0 <= i < |entries| ==> EntryCovered(epoch, entries[i].refs, physical))
  }

  ghost predicate EntryCovered(epoch: string, refs: seq<Ref>, physical: map<Key, Ref>) {
    forall ref :: ref in refs ==>
      ref.serverEpoch == epoch && ContentKey(ref) in physical && physical[ContentKey(ref)] == ref
  }

  ghost predicate DistinctBoxes(entries: seq<LedgerEntry>) {
    forall i, j :: 0 <= i < j < |entries| ==> entries[i].box != entries[j].box
  }

  /** The counters are those of the distinct references and of all entries, and stay within the limits. */
  ghost predicate Counted(l: Ledger) {
    && l.physicalItems == |l.physical| <= l.limits.physicalItems
    && l.physicalBytes == Sum(Sizes(l.physical)) <= l.limits.physicalBytes
    && l.heldItems == HeldRefs(l.entries) <= l.limits.heldItems
    && l.logicalBytes <= l.limits.logicalBytes
  }

  ghost predicate Accounted(l: Ledger) {
    Covers(l.epoch, l.entries, l.physical) && DistinctBoxes(l.entries) && Counted(l)
  }

  ghost predicate StagedOk(l: Ledger, refs: seq<Ref>, staged: Staged) {
    && staged.refs.Keys !! l.physical.Keys
    && staged.items == |staged.refs| && staged.bytes == Sum(Sizes(staged.refs))
    && (forall k :: k in staged.refs ==> ContentKey(staged.refs[k]) == k && staged.refs[k] in refs)
    && (forall ref :: ref in refs ==>
          var k := ContentKey(ref);
          && ref.serverEpoch == l.epoch
          && (k in l.physical ==> l.physical[k] == ref)
          && (k !in l.physical ==> k in staged.refs && staged.refs[k] == ref))
  }

  lemma StageKnownOk(l: Ledger, refs: seq<Ref>, staged: Staged, ref: Ref)
    requires StagedOk(l, refs, staged) && ref.serverEpoch == l.epoch
    requires var k := ContentKey(ref); k in l.physical || k in staged.refs
    requires var k := ContentKey(ref); (if k in l.physical then l.physical[k] else staged.refs[k]) == ref
    ensures StagedOk(l, refs + [ref], staged)
  {
    hide Sum, Sizes;
  }

  lemma NothingStaged(l: Ledger)
    ensures StagedOk(l, [], Staged(map[], 0, 0))
  {
    assert Sizes(map[]) == map[];
    SumEmpty<Key>();
  }

  lemma {:induction false} StageRefsOk(l: Ledger, refs: seq<Ref>, n: nat)
    requires n <= |refs|
    ensures StageRefs(l, refs, n).Some? ==> StagedOk(l, refs[..n], StageRefs(l, refs, n).value)
  {
    hide StagedOk, Sum, Sizes;
    if n == 0 {
      assert refs[..0] == [];
      NothingStaged(l);
    } else if StageRefs(l, refs, n).Some? {
      StageRefsOk(l, refs, n - 1);
      var staged := StageRefs(l, refs, n - 1).value;
      var ref := refs[n - 1];
      assert refs[..n] == refs[..n - 1] + [ref];
      if ContentKey(ref) !in l.physical && ContentKey(ref) !in staged.refs {
        StageOneOk(l, refs[..n - 1], staged, ref);
      } else {
        StageKnownOk(l, refs[..n - 1], staged, ref);
      }
    }
  }

  lemma SizesInsert(refs: map<Key, Ref>, k: Key, ref: Ref)
    requires k !in refs
    ensures Sum(Sizes(refs[k := ref])) == Sum(Sizes(refs)) + ref.byteLength && |refs[k := ref]| == |refs| + 1
  {
    hide Sum;
    assert refs[k := ref].Keys == refs.Keys + {k};
    assert Sizes(refs[k := ref]) == Sizes(refs)[k := ref.byteLength];
    SumInsert(Sizes(refs), k, ref.byteLength);
  }

  lemma StageOneOk(l: Ledger, refs: seq<Ref>, staged: Staged, ref: Ref)
    requires StagedOk(l, refs, staged) && ref.serverEpoch == l.epoch
    requires ContentKey(ref) !in l.physical && ContentKey(ref) !in staged.refs
    ensures StagedOk(l, refs + [ref], Staged(staged.refs[ContentKey(ref) := ref], staged.bytes + ref.byteLength,
      staged.items + 1))
  {
    hide Sum, Sizes;
    SizesInsert(staged.refs, ContentKey(ref), ref);
  }

  lemma {:induction false} SumUnion<K>(a: map<K, nat>, b: map<K, nat>)
    requires a.Keys !! b.Keys
    ensures Sum(a + b) == Sum(a) + Sum(b)
    decreases |b|
  {
    hide Sum;
    if b == map[] {
      assert a + b == a;
      SumEmpty<K>();
    } else {
      var k :| k in b;
      UnionDelete(a, b, k);
      UnionSum(a + b, b, k);
      SumUnion(a, b - {k});
    }
  }

  /** Deleting a shared entry takes the same from both sums. */
  lemma UnionSum<K>(all: map<K, nat>, b: map<K, nat>, k: K)
    requires k in all && k in b && all[k] == b[k]
    ensures Sum(all) - Sum(all - {k}) == Sum(b) - Sum(b - {k}) && |b - {k}| < |b|
  {
    hide Sum;
    SumDelete(all, k);
    SumDelete(b, k);
  }

  lemma UnionDelete<K>(a: map<K, nat>, b: map<K, nat>, k: K)
    requires k in b && a.Keys !! b.Keys
    ensures (a + b) - {k} == a + (b - {k}) && k in a + b && (a + b)[k] == b[k] && a.Keys !! (b - {k}).Keys
  {
  }

  lemma SizesOfUnion(a: map<Key, Ref>, b: map<Key, Ref>)
    requires a.Keys !! b.Keys
    ensures Sizes(a + b) == Sizes(a) + Sizes(b) && Sizes(a).Keys !! Sizes(b).Keys
  {
  }

  lemma KeysOfUnion<K, V>(a: map<K, V>, b: map<K, V>)
    requires a.Keys !! b.Keys
    ensures |a + b| == |a| + |b|
  {
    assert (a + b).Keys == a.Keys + b.Keys;
  }

  lemma SizesUnion(a: map<Key, Ref>, b: map<Key, Ref>)
    requires a.Keys !! b.Keys
    ensures Sum(Sizes(a + b)) == Sum(Sizes(a)) + Sum(Sizes(b)) && |a + b| == |a| + |b|
  {
    hide *;
    SizesOfUnion(a, b);
    SumUnion(Sizes(a), Sizes(b));
    KeysOfUnion(a, b);
  }

  lemma AdmitShape(l: Ledger, box: BoxId, refs: seq<Ref>, bytes: nat) returns (staged: Staged)
    requires AdmitTransfer(l, box, refs, bytes).Some?
    ensures StageRefs(l, refs, |refs|) == Some(staged) && !Seen(l, box)
    ensures var l' := AdmitTransfer(l, box, refs, bytes).value;
      && l'.entries == l.entries + [LedgerEntry(box, refs, Waiting)] && l'.physical == l.physical + staged.refs
      && l'.physicalBytes == l.physicalBytes + staged.bytes <= l.limits.physicalBytes
      && l'.physicalItems == l.physicalItems + staged.items <= l.limits.physicalItems
      && l'.heldItems == l.heldItems + |refs| <= l.limits.heldItems
      && l'.logicalBytes == l.logicalBytes + bytes <= l.limits.logicalBytes
      && l'.limits == l.limits && l'.epoch == l.epoch && l'.state == l.state == LedgerOpen
  {
    hide StageRefs, Seen;
    staged := StageRefs(l, refs, |refs|).value;
  }

  lemma HeldSnoc(entries: seq<LedgerEntry>, entry: LedgerEntry)
    ensures HeldRefs(entries + [entry]) == HeldRefs(entries) + |entry.refs|
  {
    assert (entries + [entry])[..|entries|] == entries;
  }

  /** Admission is all or nothing, and keeps every counter exact and within its limit. */
  lemma AdmitKeepsAccounts(l: Ledger, box: BoxId, refs: seq<Ref>, bytes: nat)
    requires Accounted(l) && AdmitTransfer(l, box, refs, bytes).Some?
    ensures Accounted(AdmitTransfer(l, box, refs, bytes).value)
  {
    hide Sum, Sizes, StagedOk, StageRefs, Covers, DistinctBoxes, Seen, AdmitTransfer, HeldRefs;
    var staged := AdmitShape(l, box, refs, bytes);
    StageRefsOk(l, refs, |refs|);
    assert refs[..|refs|] == refs;
    AdmitKeepsRefs(l, box, refs, staged);
    AdmitKeepsBoxes(l, box, refs);
    StagedMeans(l, refs, staged);
    SizesUnion(l.physical, staged.refs);
    HeldSnoc(l.entries, LedgerEntry(box, refs, Waiting));
  }

  lemma AdmitBytesKeepsAccounts(l: Ledger, bytes: nat)
    requires Accounted(l) && AdmitBytes(l, bytes).Some?
    ensures Accounted(AdmitBytes(l, bytes).value)
  {
    hide Sum, Sizes, HeldRefs, Covers, DistinctBoxes;
  }

  lemma StagedMeans(l: Ledger, refs: seq<Ref>, staged: Staged)
    requires StagedOk(l, refs, staged)
    ensures l.physical.Keys !! staged.refs.Keys && staged.items == |staged.refs|
    ensures staged.bytes == Sum(Sizes(staged.refs))
  {
  }

  lemma AdmitKeepsBoxes(l: Ledger, box: BoxId, refs: seq<Ref>)
    requires DistinctBoxes(l.entries) && !Seen(l, box)
    ensures DistinctBoxes(l.entries + [LedgerEntry(box, refs, Waiting)])
  {
  }

  lemma AdmitKeepsRefs(l: Ledger, box: BoxId, refs: seq<Ref>, staged: Staged)
    requires Covers(l.epoch, l.entries, l.physical) && StagedOk(l, refs, staged)
    ensures Covers(l.epoch, l.entries + [LedgerEntry(box, refs, Waiting)], l.physical + staged.refs)
  {
    hide Sum, Sizes, InEntries;
    var entries := l.entries + [LedgerEntry(box, refs, Waiting)];
    var physical := l.physical + staged.refs;
    forall k | k in physical ensures ContentKey(physical[k]) == k && InEntries(entries, physical[k]) {
      if k in staged.refs { NewInEntries(l.entries, LedgerEntry(box, refs, Waiting), physical[k]); }
      else { StillInEntries(l.entries, LedgerEntry(box, refs, Waiting), physical[k]); }
    }
    forall i | 0 <= i < |entries| ensures EntryCovered(l.epoch, entries[i].refs, physical) {
      if i < |l.entries| { assert EntryCovered(l.epoch, l.entries[i].refs, l.physical); }
    }
  }

  lemma NewInEntries(entries: seq<LedgerEntry>, entry: LedgerEntry, ref: Ref)
    requires ref in entry.refs
    ensures InEntries(entries + [entry], ref)
  {
    assert (entries + [entry])[|entries|] == entry;
  }

  lemma StillInEntries(entries: seq<LedgerEntry>, entry: LedgerEntry, ref: Ref)
    requires InEntries(entries, ref)
    ensures InEntries(entries + [entry], ref)
  {
    var i :| 0 <= i < |entries| && ref in entries[i].refs;
    assert (entries + [entry])[i] == entries[i];
  }
}

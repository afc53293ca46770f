/** When a ledger admits a transfer, and what it is then, without saying how it finds out. */
module LedgerAdmission {
  import opened Prelude
  import opened ContentRefs
  import opened LedgerModel

  /** The register with these references in it: those it had, exactly these besides, one for each key. */
  ghost predicate Joins(epoch: string, physical: map<Key, Ref>, refs: seq<Ref>, joined: map<Key, Ref>) {
    && physical.Keys <= joined.Keys && (forall k :: k in physical ==> joined[k] == physical[k])
    && (forall ref :: ref in refs ==>
          ref.serverEpoch == epoch && ContentKey(ref) in joined && joined[ContentKey(ref)] == ref)
    && (forall k :: k in joined && k !in physical ==> exists ref :: ref in refs && ContentKey(ref) == k)
  }

  /** What is new in it. */
  ghost function News(l: Ledger, joined: map<Key, Ref>): map<Key, Ref> { joined - l.physical.Keys }

  predicate Fits(used: nat, more: nat, limit: nat) { used + more <= limit && used + more <= MAX_SAFE_INTEGER }

  /** The ledger after the transfer was admitted: what it adds is new content, counted once, and every total
      stays within its limit. */
  ghost predicate Admitted(l: Ledger, l': Ledger, box: BoxId, refs: seq<Ref>, bytes: nat) {
    && l.state == LedgerOpen && IsNew(l, box)
    && Joins(l.epoch, l.physical, refs, l'.physical)
    && Totals(l, l', refs, bytes, Sum(Sizes(News(l, l'.physical))), |News(l, l'.physical)|)
    && l'.entries == l.entries + [LedgerEntry(box, refs, Waiting)]
    && l'.limits == l.limits && l'.epoch == l.epoch && l'.adopted == l.adopted && l'.state == LedgerOpen
  }

  predicate IsNew(l: Ledger, box: BoxId) { forall i :: 0 <= i < |l.entries| ==> l.entries[i].box != box }

  predicate Totals(l: Ledger, l': Ledger, refs: seq<Ref>, bytes: nat, newBytes: nat, newItems: nat) {
    && Fits(l.physicalBytes, newBytes, l.limits.physicalBytes) && l'.physicalBytes == l.physicalBytes + newBytes
    && Fits(l.physicalItems, newItems, l.limits.physicalItems) && l'.physicalItems == l.physicalItems + newItems
    && Fits(l.heldItems, |refs|, l.limits.heldItems) && l'.heldItems == l.heldItems + |refs|
    && Fits(l.logicalBytes, bytes, l.limits.logicalBytes) && l'.logicalBytes == l.logicalBytes + bytes
  }

  // ---------------------------------------------------------------- sums over parts

  lemma {:induction false} SumOfPart<K>(part: map<K, nat>, all: map<K, nat>)
    requires part.Keys <= all.Keys && forall k :: k in part ==> part[k] == all[k]
    ensures Sum(part) <= Sum(all) && |part| <= |all|
  {
    hide Sum;
    var rest := all - part.Keys;
    assert part + rest == all;
    SumUnion(part, rest);
    assert all.Keys == part.Keys + rest.Keys;
  }

  lemma SizesOfPart(part: map<Key, Ref>, all: map<Key, Ref>)
    requires part.Keys <= all.Keys && forall k :: k in part ==> part[k] == all[k]
    ensures Sum(Sizes(part)) <= Sum(Sizes(all)) && |part| <= |all|
  {
    hide Sum;
    SumOfPart(Sizes(part), Sizes(all));
    assert part.Keys <= all.Keys;
    assert Sizes(part).Keys == part.Keys && Sizes(all).Keys == all.Keys;
    SameCount(part, Sizes(part));
    SameCount(all, Sizes(all));
  }

  lemma SameCount<K, V, W>(a: map<K, V>, b: map<K, W>)
    requires a.Keys == b.Keys
    ensures |a| == |b|
  {
    assert |a| == |a.Keys| && |b| == |b.Keys|;
  }

  // ---------------------------------------------------------------- the preflight

  predicate PartOf(part: map<Key, Ref>, all: map<Key, Ref>) {
    part.Keys <= all.Keys && forall k :: k in part ==> part[k] == all[k]
  }

  ghost predicate Safe(news: map<Key, Ref>) {
    Sum(Sizes(news)) <= MAX_SAFE_INTEGER && |news| <= MAX_SAFE_INTEGER
  }

  lemma JoinedRef(l: Ledger, refs: seq<Ref>, ref: Ref, joined: map<Key, Ref>)
    requires Joins(l.epoch, l.physical, refs, joined) && ref in refs
    ensures var k := ContentKey(ref);
      && ref.serverEpoch == l.epoch && (k in l.physical ==> l.physical[k] == ref)
      && (k !in l.physical ==> k in News(l, joined) && News(l, joined)[k] == ref)
  {
  }

  lemma OneMore(staged: Staged, ref: Ref, news: map<Key, Ref>)
    requires staged.bytes == Sum(Sizes(staged.refs)) && staged.items == |staged.refs|
    requires PartOf(staged.refs, news) && Safe(news)
    requires var k := ContentKey(ref); k !in staged.refs && k in news && news[k] == ref
    ensures staged.bytes + ref.byteLength <= MAX_SAFE_INTEGER && staged.items + 1 <= MAX_SAFE_INTEGER
    ensures PartOf(staged.refs[ContentKey(ref) := ref], news)
  {
    hide Sum, Sizes;
    SizesInsert(staged.refs, ContentKey(ref), ref);
    SizesOfPart(staged.refs[ContentKey(ref) := ref], news);
  }

  /** If a joint register fits, the preflight gets through, with a part of what is new in it. */
  lemma {:induction false} StageSucceeds(l: Ledger, refs: seq<Ref>, n: nat, joined: map<Key, Ref>)
    requires n <= |refs| && Joins(l.epoch, l.physical, refs, joined) && Safe(News(l, joined))
    ensures StageRefs(l, refs, n).Some? && PartOf(StageRefs(l, refs, n).value.refs, News(l, joined))
    decreases n
  {
    hide Sum, Sizes, StagedOk, Joins, Safe, News, PartOf;
    if n > 0 {
      StageSucceeds(l, refs, n - 1, joined);
      StageRefsOk(l, refs, n - 1);
      StagedMeans(l, refs[..n - 1], StageRefs(l, refs, n - 1).value);
      StageNext(l, refs, n, joined);
    } else {
      NoPart(News(l, joined));
    }
  }

  lemma NoPart(all: map<Key, Ref>)
    ensures PartOf(map[], all)
  {
  }

  lemma StageNext(l: Ledger, refs: seq<Ref>, n: nat, joined: map<Key, Ref>)
    requires 0 < n <= |refs| && Joins(l.epoch, l.physical, refs, joined) && Safe(News(l, joined))
    requires StageRefs(l, refs, n - 1).Some?
    requires var staged := StageRefs(l, refs, n - 1).value;
      PartOf(staged.refs, News(l, joined)) && staged.bytes == Sum(Sizes(staged.refs)) && staged.items == |staged.refs|
    ensures StageRefs(l, refs, n).Some? && PartOf(StageRefs(l, refs, n).value.refs, News(l, joined))
  {
    hide Sum, Sizes, Joins, Safe, News;
    var staged, ref := StageRefs(l, refs, n - 1).value, refs[n - 1];
    JoinedRef(l, refs, ref, joined);
    if ContentKey(ref) !in l.physical && ContentKey(ref) !in staged.refs { OneMore(staged, ref, News(l, joined)); }
  }

  /** And the preflight over all references finds the one joint register there is. */
  lemma StagedJoins(l: Ledger, refs: seq<Ref>, staged: Staged)
    requires StagedOk(l, refs, staged)
    ensures Joins(l.epoch, l.physical, refs, l.physical + staged.refs)
    ensures News(l, l.physical + staged.refs) == staged.refs
  {
    hide Sum, Sizes, StagedOk, ContentKey, News;
    StagedMeans(l, refs, staged);
    NewsOfSum(l, staged.refs);
    forall ref | ref in refs
      ensures ref.serverEpoch == l.epoch && ContentKey(ref) in l.physical + staged.refs
      ensures (l.physical + staged.refs)[ContentKey(ref)] == ref
    {
      StagedRef(l, refs, staged, ref);
    }
    forall k | k in staged.refs ensures exists ref :: ref in refs && ContentKey(ref) == k {
      StagedKey(l, refs, staged, k);
    }
  }

  lemma NewsOfSum(l: Ledger, more: map<Key, Ref>)
    requires l.physical.Keys !! more.Keys
    ensures News(l, l.physical + more) == more
  {
  }

  lemma StagedRef(l: Ledger, refs: seq<Ref>, staged: Staged, ref: Ref)
    requires StagedOk(l, refs, staged) && ref in refs
    ensures ref.serverEpoch == l.epoch && ContentKey(ref) in l.physical + staged.refs
    ensures (l.physical + staged.refs)[ContentKey(ref)] == ref
  {
    hide Sum, Sizes;
  }

  lemma StagedKey(l: Ledger, refs: seq<Ref>, staged: Staged, k: Key)
    requires StagedOk(l, refs, staged) && k in staged.refs
    ensures staged.refs[k] in refs && ContentKey(staged.refs[k]) == k
  {
    hide Sum, Sizes;
  }

  lemma JoinsAll(l: Ledger, refs: seq<Ref>, staged: Staged, joined: map<Key, Ref>)
    requires StagedOk(l, refs, staged) && Joins(l.epoch, l.physical, refs, joined)
    ensures joined == l.physical + staged.refs
  {
    hide Sum, Sizes;
  }

  lemma FitsIsSafe(l: Ledger, l': Ledger, box: BoxId, refs: seq<Ref>, bytes: nat)
    requires Admitted(l, l', box, refs, bytes)
    ensures Joins(l.epoch, l.physical, refs, l'.physical) && Safe(News(l, l'.physical))
  {
    hide Sum, Sizes, Joins;
  }

  function After(l: Ledger, box: BoxId, refs: seq<Ref>, bytes: nat, staged: Staged): Ledger {
    l.(entries := l.entries + [LedgerEntry(box, refs, Waiting)], physical := l.physical + staged.refs,
       physicalBytes := l.physicalBytes + staged.bytes, physicalItems := l.physicalItems + staged.items,
       heldItems := l.heldItems + |refs|, logicalBytes := l.logicalBytes + bytes)
  }

  lemma AdmitIs(l: Ledger, box: BoxId, refs: seq<Ref>, bytes: nat, staged: Staged)
    requires StageRefs(l, refs, |refs|) == Some(staged)
    ensures AdmitTransfer(l, box, refs, bytes) ==
      if && l.state == LedgerOpen && IsNew(l, box)
         && Totals(l, After(l, box, refs, bytes, staged), refs, bytes, staged.bytes, staged.items)
      then Some(After(l, box, refs, bytes, staged)) else None
  {
    hide StageRefs, IsNew, Seen;
    SeenIs(l, box);
  }

  lemma SeenIs(l: Ledger, box: BoxId)
    ensures Seen(l, box) <==> !IsNew(l, box)
  {
  }

  /** What remains of the two sides when the preflight found `staged`. */
  lemma TotalsDecide(l: Ledger, box: BoxId, refs: seq<Ref>, bytes: nat, staged: Staged, l': Ledger)
    requires StageRefs(l, refs, |refs|) == Some(staged) && l'.physical == l.physical + staged.refs
    requires Joins(l.epoch, l.physical, refs, l'.physical) && News(l, l'.physical) == staged.refs
    requires staged.bytes == Sum(Sizes(staged.refs)) && staged.items == |staged.refs|
    ensures AdmitTransfer(l, box, refs, bytes) == Some(l') <==> Admitted(l, l', box, refs, bytes)
  {
    hide Sum, Sizes, StageRefs, Joins, News, AdmitTransfer, IsNew, Fits;
    AdmitIs(l, box, refs, bytes, staged);
    if Admitted(l, l', box, refs, bytes) { assert l' == After(l, box, refs, bytes, staged); }
  }

  /** A transfer is admitted if and only if that is possible, and the ledger is then the one it can be. */
  lemma AdmitIff(l: Ledger, box: BoxId, refs: seq<Ref>, bytes: nat, l': Ledger)
    ensures AdmitTransfer(l, box, refs, bytes) == Some(l') <==> Admitted(l, l', box, refs, bytes)
  {
    hide Sum, Sizes, StagedOk, StageRefs, Joins, Admitted, AdmitTransfer, Safe, News;
    StageRefsOk(l, refs, |refs|);
    assert refs[..|refs|] == refs;
    if Admitted(l, l', box, refs, bytes) {
      FitsIsSafe(l, l', box, refs, bytes);
      StageSucceeds(l, refs, |refs|, l'.physical);
      JoinsAll(l, refs, StageRefs(l, refs, |refs|).value, l'.physical);
    }
    if AdmitTransfer(l, box, refs, bytes) == Some(l') { AdmittedRegister(l, box, refs, bytes); }
    if StageRefs(l, refs, |refs|).Some? {
      var staged := StageRefs(l, refs, |refs|).value;
      StagedJoins(l, refs, staged);
      StagedMeans(l, refs, staged);
      if l'.physical == l.physical + staged.refs { TotalsDecide(l, box, refs, bytes, staged, l'); }
    }
  }

  lemma AdmitsWhenever(l: Ledger, box: BoxId, refs: seq<Ref>, bytes: nat)
    ensures var r := AdmitTransfer(l, box, refs, bytes);
      && (r.Some? <==> exists l' :: Admitted(l, l', box, refs, bytes))
      && (r.Some? ==> Admitted(l, r.value, box, refs, bytes))
  {
    hide Admitted, AdmitTransfer;
    forall l' ensures AdmitTransfer(l, box, refs, bytes) == Some(l') <==> Admitted(l, l', box, refs, bytes) {
      AdmitIff(l, box, refs, bytes, l');
    }
  }

  lemma AdmittedRegister(l: Ledger, box: BoxId, refs: seq<Ref>, bytes: nat)
    requires AdmitTransfer(l, box, refs, bytes).Some?
    ensures StageRefs(l, refs, |refs|).Some?
    ensures AdmitTransfer(l, box, refs, bytes).value.physical == l.physical + StageRefs(l, refs, |refs|).value.refs
  {
    hide StageRefs, Seen;
  }
}

/** The store as an object: the code between two awaits updates entries, handles and counters in place, and
    each piece of it is one step of the transition system. */
module ContentStoreObject {
  import opened Prelude
  import opened ContentRefs
  import opened ContentStore

  // ---------------------------------------------------------------- what the steps do to these fields

  ghost predicate SameQuota(s: Store, s': Store) {
    && s'.limits == s.limits && s'.tombstones == s.tombstones && s'.bytes == s.bytes && s'.items == s.items
    && s'.reservedBytes == s.reservedBytes && s'.reservedItems == s.reservedItems
  }

  lemma HoldFields(s: Store, e: EntryId, t: TokenId)
    requires e in s.heap
    ensures var s' := CreateHold(s, e, t);
      && SameQuota(s, s') && s'.entries == s.entries
      && s'.heap == s.heap[e := s.heap[e].(holds := s.heap[e].holds + 1)]
      && s'.tokens == s.tokens[t := Token(HoldToken, ContentKey(s.heap[e].ref), e, Active)]
  {
  }

  lemma CommitFields(s: Store, o: OpId, e: EntryId, t: TokenId)
    requires CanStageCommit(s, o, e, t)
    ensures var s' := StageCommit(s, o, e, t); var ref := s.ops[o].ref; var k := ContentKey(ref);
      && s'.limits == s.limits && s'.tombstones == s.tombstones
      && s'.bytes == s.bytes + ref.byteLength && s'.items == s.items + 1
      && s'.reservedBytes == s.reservedBytes - s.ops[o].reserved && s'.reservedItems == s.reservedItems - 1
      && s'.entries == s.entries[k := e] && s'.heap == s.heap[e := Entry(ref, false, 1, 0, false)]
      && s'.tokens == s.tokens[t := Token(HoldToken, k, e, Active)]
  {
    hide Sum;
  }

  lemma FreshIds(s: Store, o: OpId, e: EntryId, t: TokenId)
    requires CanStageCommit(s, o, e, t)
    ensures e !in s.heap && t !in s.tokens
  {
  }

  lemma ReleaseFields(s: Store, o: OpId)
    requires CanReleaseEnter(s, o)
    ensures var s' := ReleaseEnter(s, o); var t := s.ops[o].token;
      && SameQuota(s, s') && s'.entries == s.entries && o in s'.ops
      && t in s'.tokens && !s'.tokens[t].phase.Active?
      && s'.tokens == s.tokens[t := s.tokens[t].(phase := s'.tokens[t].phase)]
    ensures var s' := ReleaseEnter(s, o); var tok := s.tokens[s.ops[o].token];
      if tok.key in s.entries && s.entries[tok.key] in s.heap then
        var e := s.entries[tok.key]; var en := Lowered(s.heap[e], tok.kind);
        && s'.heap == s.heap[e := if !en.published && Unused(en) then en.(deleting := true) else en]
        && (s'.ops[o].Deleting? <==> !en.published && Unused(en))
      else s'.heap == s.heap && s'.ops[o].Finished?
  {
    hide Queue, Unused, Lowered;
    var t := s.ops[o].token;
    var k := s.tokens[t].key;
    if k in s.entries && s.entries[k] in s.heap {
      var e := s.entries[k];
      var en := Lowered(s.heap[e], s.tokens[t].kind);
      if !en.published && Unused(en) {
        assert ReleaseEnter(s, o).heap == s.heap[e := en.(deleting := true)];
      } else {
        assert ReleaseEnter(s, o).heap == s.heap[e := en];
      }
    }
  }

  lemma CatchFields(s: Store, o: OpId)
    requires CanDeleteCatch(s, o)
    ensures var s' := DeleteCatch(s, o); var e := s.ops[o].entry; var k := s.ops[o].key; var why := s.ops[o].why;
      var revived := k in s.entries && s.entries[k] == e;
      && SameQuota(s, s') && s'.entries == s.entries
      && (!revived ==> s'.heap == s.heap)
      && (revived && why.ByGc? ==> s'.heap == s.heap[e := s.heap[e].(deleting := false)])
      && (revived && why.ByRelease? ==>
            s'.heap == s.heap[e := Raised(s.heap[e].(deleting := false), s.tokens[why.token].kind)])
      && (why.ByGc? ==> s'.tokens == s.tokens)
      && (why.ByRelease? ==>
            s'.tokens == s.tokens[why.token := s.tokens[why.token].(phase := if revived then Active else Released)])
  {
    hide Sum;
    if s.ops[o].why.ByRelease? {} else {}
  }

  lemma CollectFields(s: Store, o: OpId)
    requires CanGcEnter(s, o)
    ensures var s' := GcEnter(s, o); var e := s.ops[o].entry; var en := s.heap[e];
      && SameQuota(s, s') && s'.entries == s.entries && s'.tokens == s.tokens && o in s'.ops
      && (s'.ops[o].Deleting? <==> en.published && Unused(en))
      && s'.heap == if en.published && Unused(en) then s.heap[e := en.(deleting := true)] else s.heap
  {
    hide Queue;
  }

  lemma PinFields(s: Store, o: OpId, ref: Ref)
    requires CanPinCall(s, o, ref)
    ensures var s' := PinCall(s, o, ref); var e := s.entries[ContentKey(ref)];
      && SameQuota(s, s') && s'.entries == s.entries && s'.tokens == s.tokens
      && s'.heap == s.heap[e := s.heap[e].(pins := s.heap[e].pins + 1)]
  {
    hide Sum;
  }

  lemma ReleaseCallFields(s: Store, o: OpId, t: TokenId)
    requires CanReleaseCall(s, o, t)
    ensures var s' := ReleaseCall(s, o, t);
      && SameQuota(s, s') && s'.entries == s.entries && s'.heap == s.heap
      && s'.tokens == s.tokens[t := s.tokens[t].(phase := Releasing(o))]
  {
    hide Queue;
  }

  lemma ReuseFields(s: Store, o: OpId, t: TokenId)
    requires CanStageVerified(s, o, t)
    ensures var s' := StageVerified(s, o, true, t); var e := s.ops[o].entry;
      && s'.limits == s.limits && s'.tombstones == s.tombstones && s'.bytes == s.bytes && s'.items == s.items
      && s'.reservedBytes == s.reservedBytes - s.ops[o].reserved && s'.reservedItems == s.reservedItems - 1
      && s'.entries == s.entries && s'.heap == s.heap[e := s.heap[e].(holds := s.heap[e].holds + 1)]
      && s'.tokens == s.tokens[t := Token(HoldToken, ContentKey(s.heap[e].ref), e, Active)]
  {
    hide Sum;
  }

  // ---------------------------------------------------------------- the objects

  class StoredEntry {
    ghost const id: EntryId
    const ref: Ref
    var published: bool
    var holds: nat
    var pins: nat
    var deleting: bool

    constructor (ghost id: EntryId, ref: Ref)
      ensures this.id == id && View() == Entry(ref, false, 0, 0, false)
    {
      this.id, this.ref := id, ref;
      published, holds, pins, deleting := false, 0, 0, false;
    }

    ghost function View(): Entry
      reads this
    {
      Entry(ref, published, holds, pins, deleting)
    }

    method Lower(kind: TokenKind)
      modifies this`holds, this`pins
      ensures View() == Lowered(old(View()), kind)
      ensures holds == if kind == HoldToken && old(holds) > 0 then old(holds) - 1 else old(holds)
      ensures pins == if kind == PinToken && old(pins) > 0 then old(pins) - 1 else old(pins)
    {
      if kind == HoldToken {
        holds := if holds > 0 then holds - 1 else 0;
      } else {
        pins := if pins > 0 then pins - 1 else 0;
      }
    }

    method Raise(kind: TokenKind)
      modifies this`holds, this`pins
      ensures View() == Raised(old(View()), kind)
      ensures holds == old(holds) + if kind == HoldToken then 1 else 0
      ensures pins == old(pins) + if kind == PinToken then 1 else 0
    {
      if kind == HoldToken { holds := holds + 1; } else { pins := pins + 1; }
    }
  }

  class TokenState {
    ghost const id: TokenId
    const kind: TokenKind
    const key: Key
    var active: bool

    constructor (ghost id: TokenId, kind: TokenKind, key: Key)
      ensures this.id == id && this.kind == kind && this.key == key && active
    {
      this.id, this.kind, this.key, active := id, kind, key, true;
    }
  }

  /** The object stands for the token: one flag for two phases in which the handle is not active. */
  ghost predicate Stands(state: TokenState, tok: Token)
    reads state
  {
    state.kind == tok.kind && state.key == tok.key && state.active == tok.phase.Active?
  }

  class Reservation {
    const bytes: nat
    var active: bool

    constructor (bytes: nat)
      ensures this.bytes == bytes && active
    {
      this.bytes, active := bytes, true;
    }
  }

  class EpochContentStore {
    const limits: Limits
    var entries: map<Key, StoredEntry>
    var tombstones: map<TombId, nat>
    var bytes: int
    var items: int
    var reservedBytes: int
    var reservedItems: int
    ghost var heap: map<EntryId, StoredEntry>
    ghost var tokens: map<TokenId, TokenState>

    constructor (limits: Limits)
      ensures forall s: Store :: IsInit(s) && s.limits == limits ==> Agrees(s)
      ensures fresh(this)
    {
      this.limits := limits;
      entries, tombstones, heap, tokens := map[], map[], map[], map[];
      bytes, items, reservedBytes, reservedItems := 0, 0, 0, 0;
    }

    /** The object's fields are those of state `s`; queues, calls in progress and the disk are not in it. */
    ghost predicate Agrees(s: Store)
      reads this, heap.Values, tokens.Values
    {
      && limits == s.limits && tombstones == s.tombstones
      && bytes == s.bytes && items == s.items && reservedBytes == s.reservedBytes && reservedItems == s.reservedItems
      && HeapIs(s.heap) && RegistryIs(s.entries) && TokensAre(s.tokens)
    }

    ghost predicate HeapIs(h: map<EntryId, Entry>)
      reads this`heap, heap.Values
    {
      heap.Keys == h.Keys && forall e :: e in heap ==> heap[e].id == e && heap[e].View() == h[e]
    }

    ghost predicate RegistryIs(r: map<Key, EntryId>)
      reads this`heap, this`entries
    {
      entries.Keys == r.Keys && forall k :: k in entries ==> r[k] in heap && entries[k] == heap[r[k]]
    }

    ghost predicate TokensAre(m: map<TokenId, Token>)
      reads this`tokens, tokens.Values
    {
      && tokens.Keys == m.Keys
      && forall t :: t in tokens ==> tokens[t].id == t && Stands(tokens[t], m[t])
    }

    /** The entry is one of the store's. */
    ghost predicate Knows(entry: StoredEntry)
      reads this`heap
    {
      entry.id in heap && heap[entry.id] == entry
    }

    // -------------------------------------------------------------- one object at a time

    lemma EntryAt(h: map<EntryId, Entry>, e: EntryId)
      requires HeapIs(h) && (e in heap || e in h)
      ensures e in heap && e in h && heap[e].id == e && heap[e].View() == h[e]
    {
    }

    lemma EntryNamed(h: map<EntryId, Entry>, r: map<Key, EntryId>, k: Key)
      requires HeapIs(h) && RegistryIs(r)
      ensures k in entries <==> k in r
      ensures k in r ==> r[k] in heap && r[k] in h && entries[k] == heap[r[k]] && heap[r[k]].View() == h[r[k]]
      ensures k in r ==> heap[r[k]].id == r[k]
    {
    }

    lemma TokenAt(m: map<TokenId, Token>, t: TokenId)
      requires TokensAre(m) && (t in tokens || t in m)
      ensures t in tokens && t in m && tokens[t].id == t && Stands(tokens[t], m[t])
    {
    }

    /** A flag that is down stands for each of the phases in which it is. */
    lemma StillDown(m: map<TokenId, Token>, t: TokenId, phase: Phase)
      requires TokensAre(m) && t in m && !m[t].phase.Active? && !phase.Active?
      ensures TokensAre(m[t := m[t].(phase := phase)])
    {
    }

    /** Raises or lowers one counter. */
    method Count(entry: StoredEntry, kind: TokenKind, up: bool, ghost h: map<EntryId, Entry>)
      requires HeapIs(h) && Knows(entry) && entry.id in h
      modifies entry`holds, entry`pins
      ensures entry.View() == if up then Raised(h[entry.id], kind) else Lowered(h[entry.id], kind)
      ensures HeapIs(h[entry.id := entry.View()])
    {
      if up { entry.Raise(kind); } else { entry.Lower(kind); }
    }

    method Flag(entry: StoredEntry, deleting: bool, ghost h: map<EntryId, Entry>)
      requires HeapIs(h) && Knows(entry) && entry.id in h
      modifies entry`deleting
      ensures entry.View() == h[entry.id].(deleting := deleting) && HeapIs(h[entry.id := entry.View()])
    {
      entry.deleting := deleting;
    }

    method AddEntry(entry: StoredEntry, ghost h: map<EntryId, Entry>, ghost r: map<Key, EntryId>)
      requires HeapIs(h) && RegistryIs(r) && entry.id !in h
      modifies this`entries, this`heap
      ensures HeapIs(h[entry.id := entry.View()]) && RegistryIs(r[ContentKey(entry.ref) := entry.id])
      ensures entries == old(entries)[ContentKey(entry.ref) := entry]
    {
      entries := entries[ContentKey(entry.ref) := entry];
      heap := heap[entry.id := entry];
    }

    method AddHandle(token: TokenState, ghost m: map<TokenId, Token>, ghost tok: Token)
      requires TokensAre(m) && Stands(token, tok)
      modifies this`tokens
      ensures TokensAre(m[token.id := tok]) && tokens == old(tokens)[token.id := token]
    {
      tokens := tokens[token.id := token];
    }

    method Activate(token: TokenState, active: bool, ghost m: map<TokenId, Token>, ghost phase: Phase)
      requires TokensAre(m) && token.id in tokens && tokens[token.id] == token && token.id in m
      requires active == phase.Active?
      modifies token
      ensures TokensAre(m[token.id := m[token.id].(phase := phase)]) && token.active == active
    {
      token.active := active;
    }

    // -------------------------------------------------------------- reservations

    /** `#reserve`, at the beginning of a stage. */
    method Reserve(amount: nat, ghost s: Store, ghost o: OpId, ghost ns: Namespace, ghost expected: Option<nat>)
      returns (r: Reservation?)
      requires Agrees(s) && o !in s.ops && (expected.Some? ==> 0 < expected.value <= BlobLimit(s, ns))
      requires amount == if expected.Some? then expected.value else BlobLimit(s, ns)
      modifies this`reservedBytes, this`reservedItems
      ensures r != null <==> CanStage(s, o, ns, expected)
      ensures r != null <==>
        && bytes + old(reservedBytes) + amount <= limits.maxCacheBytes
        && items + old(reservedItems) + 1 <= limits.maxCacheItems
      ensures reservedBytes == old(reservedBytes) + if r != null then amount else 0
      ensures reservedItems == old(reservedItems) + if r != null then 1 else 0
      ensures r != null ==> fresh(r) && r.active && r.bytes == amount && Agrees(StageCall(s, o, ns, expected))
      ensures r == null ==> Agrees(s)
    {
      hide HeapIs, RegistryIs, TokensAre;
      if bytes + reservedBytes + amount > limits.maxCacheBytes { return null; }
      if items + reservedItems + 1 > limits.maxCacheItems { return null; }
      reservedBytes := reservedBytes + amount;
      reservedItems := reservedItems + 1;
      r := new Reservation(amount);
    }

    /** `#rollbackReservation`: does nothing the second time. */
    method RollbackReservation(r: Reservation)
      modifies this`reservedBytes, this`reservedItems, r
      ensures !r.active
      ensures reservedBytes == old(reservedBytes) - (if old(r.active) then r.bytes else 0)
      ensures reservedItems == old(reservedItems) - (if old(r.active) then 1 else 0)
    {
      if !r.active { return; }
      r.active := false;
      reservedBytes := reservedBytes - r.bytes;
      reservedItems := reservedItems - 1;
    }

    method CommitReservation(r: Reservation, actualBytes: nat)
      requires r.active
      modifies this`reservedBytes, this`reservedItems, this`bytes, this`items, r
      ensures !r.active
      ensures reservedBytes == old(reservedBytes) - r.bytes && reservedItems == old(reservedItems) - 1
      ensures bytes == old(bytes) + actualBytes && items == old(items) + 1
    {
      r.active := false;
      reservedBytes := reservedBytes - r.bytes;
      reservedItems := reservedItems - 1;
      bytes := bytes + actualBytes;
      items := items + 1;
    }

    /** The `finally` clause of a stage that did not come to anything. */
    method UnwindStage(r: Reservation, ghost s: Store, ghost o: OpId)
      requires Agrees(s) && CanStageUnwind(s, o) && r.active && r.bytes == s.ops[o].reserved
      modifies this`reservedBytes, this`reservedItems, r
      ensures Agrees(StageUnwind(s, o)) && !r.active
      ensures reservedBytes == old(reservedBytes) - r.bytes && reservedItems == old(reservedItems) - 1
    {
      hide HeapIs, RegistryIs, TokensAre;
      RollbackReservation(r);
    }

    // -------------------------------------------------------------- handles

    /** An active handle for what the entry holds. */
    ghost predicate IsHandle(token: TokenState, kind: TokenKind, entry: StoredEntry)
      reads token
    {
      token.active && token.kind == kind && token.key == ContentKey(entry.ref)
    }

    /** `#createHold`. */
    method MakeHold(entry: StoredEntry, ghost s: Store, ghost t: TokenId) returns (hold: TokenState)
      requires Agrees(s) && Knows(entry) && t !in s.tokens
      modifies this`tokens, entry`holds, entry`pins
      ensures Agrees(CreateHold(s, entry.id, t)) && fresh(hold) && tokens == old(tokens)[t := hold]
      ensures IsHandle(hold, HoldToken, entry) && entry.View() == Raised(old(entry.View()), HoldToken)
    {
      hide HeapIs, RegistryIs, TokensAre, Stands, CreateHold;
      EntryAt(s.heap, entry.id);
      HoldFields(s, entry.id, t);
      Count(entry, HoldToken, true, s.heap);
      hold := NewHandle(t, HoldToken, entry, s.tokens);
    }

    /** A fresh active handle for the entry. */
    method NewHandle(ghost t: TokenId, kind: TokenKind, entry: StoredEntry, ghost m: map<TokenId, Token>)
      returns (token: TokenState)
      requires TokensAre(m)
      modifies this`tokens
      ensures TokensAre(m[t := Token(kind, ContentKey(entry.ref), entry.id, Active)])
      ensures fresh(token) && tokens == old(tokens)[t := token] && IsHandle(token, kind, entry)
    {
      hide TokensAre;
      token := new TokenState(t, kind, ContentKey(entry.ref));
      AddHandle(token, m, Token(kind, ContentKey(entry.ref), entry.id, Active));
    }

    /** The end of a stage that built a new directory. */
    method CommitStage(ref: Ref, r: Reservation, ghost s: Store, ghost o: OpId, ghost e: EntryId, ghost t: TokenId)
      returns (hold: TokenState)
      requires Agrees(s) && CanStageCommit(s, o, e, t) && ref == s.ops[o].ref && r.active
      requires r.bytes == s.ops[o].reserved
      modifies this, r
      ensures Agrees(StageCommit(s, o, e, t)) && !r.active && fresh(hold)
      ensures bytes == old(bytes) + ref.byteLength && items == old(items) + 1
      ensures reservedBytes == old(reservedBytes) - r.bytes && reservedItems == old(reservedItems) - 1
      ensures tombstones == old(tombstones) && tokens == old(tokens)[t := hold]
      ensures var k := ContentKey(ref);
        && k in entries && fresh(entries[k]) && entries == old(entries)[k := entries[k]]
        && entries[k].View() == Entry(ref, false, 1, 0, false) && IsHandle(hold, HoldToken, entries[k])
    {
      hide HeapIs, RegistryIs, TokensAre, StageCommit, CanStageCommit;
      CommitFields(s, o, e, t);
      FreshIds(s, o, e, t);
      CommitReservation(r, ref.byteLength);
      var entry := new StoredEntry(e, ref);
      entry.holds := 1;
      AddEntry(entry, s.heap, s.entries);
      hold := NewHandle(t, HoldToken, entry, s.tokens);
    }

    /** The end of a stage that found its content there. */
    method ReuseStage(entry: StoredEntry, r: Reservation, ghost s: Store, ghost o: OpId, ghost t: TokenId)
      returns (hold: TokenState)
      requires Agrees(s) && CanStageVerified(s, o, t) && entry.id == s.ops[o].entry && Knows(entry)
      requires r.active && r.bytes == s.ops[o].reserved
      modifies this`reservedBytes, this`reservedItems, this`tokens, r, entry`holds, entry`pins
      ensures Agrees(StageVerified(s, o, true, t)) && !r.active && fresh(hold)
      ensures reservedBytes == old(reservedBytes) - r.bytes && reservedItems == old(reservedItems) - 1
      ensures tokens == old(tokens)[t := hold] && IsHandle(hold, HoldToken, entry)
      ensures entry.holds == old(entry.holds) + 1 && entry.pins == old(entry.pins)
    {
      hide HeapIs, RegistryIs, TokensAre, StageVerified;
      ReuseFields(s, o, t);
      EntryAt(s.heap, entry.id);
      RollbackReservation(r);
      Count(entry, HoldToken, true, s.heap);
      hold := NewHandle(t, HoldToken, entry, s.tokens);
    }

    /** The end of `#holdPublishedInternal`, with the manifest verified. */
    method HoldPublished(entry: StoredEntry, ghost s: Store, ghost o: OpId, ghost t: TokenId) returns (hold: TokenState)
      requires Agrees(s) && CanHoldVerified(s, o, t) && entry.id == s.ops[o].entry && Knows(entry)
      modifies this`tokens, entry`holds, entry`pins
      ensures Agrees(HoldVerified(s, o, true, t)) && fresh(hold)
      ensures tokens == old(tokens)[t := hold] && IsHandle(hold, HoldToken, entry)
      ensures entry.holds == old(entry.holds) + 1 && entry.pins == old(entry.pins)
    {
      hide HeapIs, RegistryIs, TokensAre, CreateHold, Queue;
      hold := MakeHold(entry, s, t);
    }

    /** The end of a publication. */
    method MarkPublished(entry: StoredEntry, ghost s: Store, ghost o: OpId)
      requires Agrees(s) && CanPublishDone(s, o) && entry.id == s.ops[o].entry && Knows(entry)
      modifies entry`published
      ensures Agrees(PublishDone(s, o)) && entry.published
    {
      hide RegistryIs, TokensAre;
      EntryAt(s.heap, entry.id);
      entry.published := true;
    }

    // -------------------------------------------------------------- pins

    /** The beginning of `#pinInternal`, outside every lock. */
    method BeginPin(ref: Ref, ghost s: Store, ghost o: OpId) returns (entry: StoredEntry?)
      requires Agrees(s) && o !in s.ops
      modifies heap.Values
      ensures entry != null <==> CanPinCall(s, o, ref)
      ensures entry != null ==> Agrees(PinCall(s, o, ref)) && entry.id == s.entries[ContentKey(ref)] && Knows(entry)
      ensures entry == null ==> Agrees(s)
      ensures entry != null <==>
        var k := ContentKey(ref);
        k in entries && entries[k].ref == ref && entries[k].published && !old(entries[k].deleting)
      ensures entry != null ==> entry == entries[ContentKey(ref)]
      ensures entry != null ==> entry.View() == Raised(old(entries[ContentKey(ref)].View()), PinToken)
      ensures forall x :: x in heap.Values && x != entry ==> x.View() == old(x.View())
    {
      hide HeapIs, RegistryIs, TokensAre, PinCall;
      var key := ContentKey(ref);
      EntryNamed(s.heap, s.entries, key);
      if CanPinCall(s, o, ref) { PinFields(s, o, ref); }
      if key !in entries { return null; }
      entry := entries[key];
      if entry.deleting || entry.ref != ref || !entry.published { return null; }
      Count(entry, PinToken, true, s.heap);
    }

    method OpenPin(entry: StoredEntry, ghost s: Store, ghost o: OpId, ghost t: TokenId) returns (pin: TokenState)
      requires Agrees(s) && CanPinOpened(s, o, t) && entry.id == s.ops[o].entry && Knows(entry)
      modifies this`tokens
      ensures Agrees(PinOpened(s, o, t)) && fresh(pin)
      ensures tokens == old(tokens)[t := pin] && IsHandle(pin, PinToken, entry)
    {
      hide HeapIs, RegistryIs, TokensAre;
      EntryAt(s.heap, entry.id);
      pin := NewHandle(t, PinToken, entry, s.tokens);
    }

    method FailPin(entry: StoredEntry, ghost s: Store, ghost o: OpId)
      requires Agrees(s) && CanPinFail(s, o) && entry.id == s.ops[o].entry && Knows(entry)
      modifies entry`holds, entry`pins
      ensures Agrees(PinFail(s, o))
      ensures entry.holds == old(entry.holds) && entry.pins == if old(entry.pins) > 0 then old(entry.pins) - 1 else 0
    {
      hide HeapIs, RegistryIs, TokensAre;
      EntryAt(s.heap, entry.id);
      Count(entry, PinToken, false, s.heap);
    }

    // -------------------------------------------------------------- release

    /** The beginning of `#releaseInternal`. */
    method BeginRelease(token: TokenState, ghost s: Store, ghost o: OpId) returns (begun: bool)
      requires Agrees(s) && o !in s.ops && token.id in tokens && tokens[token.id] == token
      modifies token
      ensures begun <==> CanReleaseCall(s, o, token.id)
      ensures !token.active && (begun <==> old(token.active))
      ensures Agrees(if begun then ReleaseCall(s, o, token.id) else s)
    {
      hide HeapIs, RegistryIs, TokensAre, ReleaseCall;
      TokenAt(s.tokens, token.id);
      if CanReleaseCall(s, o, token.id) { ReleaseCallFields(s, o, token.id); }
      if !token.active { return false; }
      Activate(token, false, s.tokens, Releasing(o));
      return true;
    }

    /** Inside the digest lock: the counter goes down, and the last holder of unpublished content is told
        to delete it. */
    method LowerCounter(token: TokenState, ghost s: Store, ghost o: OpId) returns (entry: StoredEntry?, last: bool)
      requires Agrees(s) && CanReleaseEnter(s, o) && token.id == s.ops[o].token
      requires token.id in tokens && tokens[token.id] == token && !token.active
      modifies heap.Values
      ensures entry != null <==> token.key in s.entries
      ensures entry != null ==> entry.id == s.entries[token.key] && Knows(entry)
      ensures last <==> ReleaseEnter(s, o).ops[o].Deleting?
      ensures Agrees(ReleaseEnter(s, o))
      ensures entry == if token.key in entries then entries[token.key] else null
      ensures last <==>
        entry != null && !entry.published && entry.holds == 0 && entry.pins == 0 && !old(entries[token.key].deleting)
      ensures entry != null ==>
        entry.View() == Lowered(old(entries[token.key].View()), token.kind).(
          deleting := last || old(entries[token.key].deleting))
      ensures forall x :: x in heap.Values && x != entry ==> x.View() == old(x.View())
    {
      hide HeapIs, RegistryIs, TokensAre, ReleaseEnter;
      ReleaseFields(s, o);
      TokenAt(s.tokens, token.id);
      EntryNamed(s.heap, s.entries, token.key);
      last := false;
      StillDown(s.tokens, token.id, ReleaseEnter(s, o).tokens[token.id].phase);
      if token.key !in entries { return null, false; }
      entry := entries[token.key];
      Count(entry, token.kind, false, s.heap);
      if !entry.published && entry.holds == 0 && entry.pins == 0 && !entry.deleting {
        ghost var lowered := s.heap[entry.id := entry.View()];
        Flag(entry, true, lowered);
        assert lowered[entry.id := entry.View()] == s.heap[entry.id := entry.View()];
        last := true;
      }
    }

    /** The `catch` clause of a release: while the entry is registered, it gets everything back. */
    method CatchRelease(token: TokenState, entry: StoredEntry, ghost s: Store, ghost o: OpId)
      requires Agrees(s) && CanDeleteCatch(s, o) && s.ops[o].why.ByRelease? && token.key == s.ops[o].key
      requires token.id == s.ops[o].why.token && token.id in tokens && tokens[token.id] == token && !token.active
      requires entry.id == s.ops[o].entry && Knows(entry)
      modifies token, entry
      ensures Agrees(DeleteCatch(s, o))
      ensures token.active <==> token.key in entries && entries[token.key] == entry
      ensures entry.View() ==
        if token.active then Raised(old(entry.View()).(deleting := false), token.kind) else old(entry.View())
    {
      hide HeapIs, RegistryIs, TokensAre, DeleteCatch;
      CatchFields(s, o);
      TokenAt(s.tokens, token.id);
      EntryAt(s.heap, entry.id);
      EntryNamed(s.heap, s.entries, token.key);
      if token.key in entries && entries[token.key] == entry {
        Flag(entry, false, s.heap);
        ghost var flagged := s.heap[entry.id := entry.View()];
        Count(entry, token.kind, true, flagged);
        assert flagged[entry.id := entry.View()] == s.heap[entry.id := entry.View()];
        Activate(token, true, s.tokens, Active);
      } else {
        StillDown(s.tokens, token.id, Released);
      }
    }

    // -------------------------------------------------------------- collection

    /** The check of one candidate, inside its digest lock. */
    method BeginCollect(entry: StoredEntry, ghost s: Store, ghost o: OpId) returns (collect: bool)
      requires Agrees(s) && CanGcEnter(s, o) && entry.id == s.ops[o].entry && Knows(entry)
      modifies entry`deleting
      ensures collect <==> GcEnter(s, o).ops[o].Deleting?
      ensures Agrees(GcEnter(s, o))
      ensures collect <==> entry.published && entry.holds == 0 && entry.pins == 0 && !old(entry.deleting)
      ensures entry.deleting == (collect || old(entry.deleting))
    {
      hide HeapIs, RegistryIs, TokensAre, GcEnter;
      CollectFields(s, o);
      EntryAt(s.heap, entry.id);
      if entry.deleting || entry.holds != 0 || entry.pins != 0 || !entry.published { return false; }
      Flag(entry, true, s.heap);
      return true;
    }

    method CatchCollect(key: Key, entry: StoredEntry, ghost s: Store, ghost o: OpId)
      requires Agrees(s) && CanDeleteCatch(s, o) && s.ops[o].why.ByGc? && key == s.ops[o].key
      requires entry.id == s.ops[o].entry && Knows(entry)
      modifies entry`deleting
      ensures Agrees(DeleteCatch(s, o))
      ensures entry.deleting <==> old(entry.deleting) && !(key in entries && entries[key] == entry)
    {
      hide HeapIs, RegistryIs, TokensAre, DeleteCatch;
      CatchFields(s, o);
      EntryAt(s.heap, entry.id);
      EntryNamed(s.heap, s.entries, key);
      if key in entries && entries[key] == entry { Flag(entry, false, s.heap); }
    }

    /** After the rename: the entry gives way to a tombstone, which keeps its share of the quota. */
    method Unregister(key: Key, entry: StoredEntry, tomb: TombId, ghost s: Store, ghost o: OpId)
      requires Agrees(s) && CanDeleteUnregister(s, o) && key == s.ops[o].key && tomb == s.ops[o].stage.tomb
      requires entry.id == s.ops[o].entry && Knows(entry)
      modifies this`entries, this`tombstones
      ensures Agrees(DeleteUnregister(s, o))
      ensures entries == old(entries) - {key} && tombstones == old(tombstones)[tomb := entry.ref.byteLength]
    {
      hide HeapIs, TokensAre;
      EntryAt(s.heap, entry.id);
      entries := entries - {key};
      tombstones := tombstones[tomb := entry.ref.byteLength];
    }

    /** After a removal from disk: a tombstone that is tracked gives its share back. */
    method ForgetTombstone(tomb: TombId, ghost s: Store)
      requires Agrees(s)
      modifies this`tombstones, this`bytes, this`items
      ensures Agrees(DropTomb(s, tomb))
      ensures tombstones == old(tombstones) - {tomb}
      ensures bytes == old(bytes) - (if tomb in old(tombstones) then old(tombstones)[tomb] else 0)
      ensures items == old(items) - if tomb in old(tombstones) then 1 else 0
    {
      hide HeapIs, RegistryIs, TokensAre;
      if tomb !in tombstones { return; }
      bytes := bytes - tombstones[tomb];
      items := items - 1;
      tombstones := tombstones - {tomb};
    }
  }
}

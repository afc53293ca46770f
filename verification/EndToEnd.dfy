/** The store and the custody chain together: content that a generation's owner has not let go of can be
    read. Every release the chain starts is a release call of the store, and every hold it acquires is a
    handle the store has just created. */
module EndToEnd {
  import opened Prelude
  import opened ContentRefs
  import S = ContentStore
  import SI = ContentStoreInvariant
  import SS = ContentStoreSafety
  import SR = ContentStoreRuns
  import O = OwnerModel
  import L = LedgerModel
  import C = CustodyModel
  import CI = CustodyInvariant
  import CS = CustodySafety
  import CR = CustodyRuns

  /** `published` is control flow: the holds whose frame has come past a successful `publish`, or that
      came from `holdPublished`. */
  datatype Joint = Joint(store: S.Store, world: C.World, published: set<Hold>)

  predicate JInit(j: Joint) { S.IsInit(j.store) && C.WInit(j.world) && j.published == {} }

  // ---------------------------------------------------------------- the steps

  predicate InCustody(j: Joint, t: S.TokenId) { exists h :: h in j.world.homes && h.id == t }

  /** Store steps that concern no hold of the chain's: everybody else may do anything, except release
      handles that are not theirs. */
  predicate CanStoreStep(j: Joint, a: S.Action) {
    S.Can(j.store, a) && (a.Handle? && a.handle.AReleaseCall? ==> !InCustody(j, a.handle.t))
  }

  /** The store step that creates a hold handle, if it does. */
  predicate Creates(a: S.Action, t: S.TokenId) {
    || (a.Stage? && a.stage.AStageVerified? && a.stage.ok && a.stage.t == t)
    || (a.Stage? && a.stage.AStageCommit? && a.stage.t == t)
    || (a.Handle? && a.handle.AHoldVerified? && a.handle.ok && a.handle.t == t)
  }

  predicate CanAcquireStep(j: Joint, a: S.Action, b: L.BoxId, h: Hold) {
    && S.Can(j.store, a) && Creates(a, h.id)
    && C.CanAcquire(j.world, b, h)
    && var s' := S.Do(j.store, a);
    && h.id in s'.tokens && s'.tokens[h.id].entry in s'.heap && s'.heap[s'.tokens[h.id].entry].ref == h.ref
  }

  function AcquireStep(j: Joint, a: S.Action, b: L.BoxId, h: Hold): Joint {
    Joint(S.Do(j.store, a), C.Acquire(j.world, b, h), if a.Handle? then j.published + {h} else j.published)
  }

  /** The call finds its content published already. */
  predicate Found(s: S.Store, o: S.OpId, t: S.TokenId) {
    && o in s.ops && s.ops[o].PublishQueued? && s.ops[o].token == t && t in s.tokens && s.tokens[t].phase == S.Active
    && var k := s.tokens[t].key;
    && k in s.entries && s.entries[k] in s.heap && !s.heap[s.entries[k]].deleting && s.heap[s.entries[k]].published
  }

  /** A publish call of the frame returns normally: it wrote the manifest, or found it written. */
  predicate Publishes(s: S.Store, a: S.Action, t: S.TokenId) {
    && S.Can(s, a) && a.Handle?
    && match a.handle
       case APublishDone(o) => o in s.ops && s.ops[o].PublishWritten? && s.ops[o].token == t
       case APublishEnter(o) => Found(s, o, t)
       case _ => false
  }

  predicate CanPublishedStep(j: Joint, a: S.Action, b: L.BoxId, h: Hold) {
    && b in j.world.boxes && j.world.boxes[b].kind == C.Frame && C.Pending(j.world.boxes[b])
    && h in j.world.boxes[b].holds
    && Publishes(j.store, a, h.id)
  }

  function PublishedStep(j: Joint, a: S.Action, h: Hold): Joint {
    Joint(S.Do(j.store, a), j.world, j.published + {h})
  }

  predicate Starts(w: C.World, w': C.World, t: S.TokenId) {
    exists h :: h in w'.homes && h.id == t && C.Times(w'.starts, h) > C.Times(w.starts, h)
  }

  /** `releases` are the release calls behind the attempts a custody step starts. */
  predicate CanRelease(s: S.Store, releases: seq<(S.OpId, S.TokenId)>)
    decreases |releases|
  {
    releases == [] || (S.CanReleaseCall(s, releases[0].0, releases[0].1)
                       && CanRelease(S.ReleaseCall(s, releases[0].0, releases[0].1), releases[1..]))
  }

  function ReleaseAll(s: S.Store, releases: seq<(S.OpId, S.TokenId)>): S.Store
    decreases |releases|
  {
    if releases == [] then s else ReleaseAll(S.ReleaseCall(s, releases[0].0, releases[0].1), releases[1..])
  }

  predicate Rises(before: map<Hold, nat>, after: map<Hold, nat>, h: Hold) { C.Times(after, h) > C.Times(before, h) }

  /** An attempt on an active handle calls the store's release; on any other it returns at once. */
  predicate Calls(s: S.Store, releases: seq<(S.OpId, S.TokenId)>, h: Hold) {
    h.id in s.tokens && s.tokens[h.id].phase == S.Active ==> exists r :: r in releases && r.1 == h.id
  }

  predicate Gone(s: S.Store, h: Hold) { h.id in s.tokens && s.tokens[h.id].phase == S.Released }

  /** A frame becomes a lease only when all its content is published, and a release counts as a success only
      when the store has seen it through. */
  predicate CanCustodyStep(j: Joint, c: C.Action, releases: seq<(S.OpId, S.TokenId)>) {
    && C.Can(j.world, c) && !c.AAcquire?
    && (c.APassOn? && j.world.boxes[c.b].kind == C.Frame ==> Elements(j.world.boxes[c.b].holds) <= j.published)
    && CanRelease(j.store, releases)
    && (forall r :: r in releases ==> Starts(j.world, C.Do(j.world, c), r.1))
    && (forall h :: h in C.Do(j.world, c).homes && Rises(j.world.starts, C.Do(j.world, c).starts, h) ==>
          Calls(j.store, releases, h))
    && (forall h :: h in C.Do(j.world, c).homes && Rises(j.world.wins, C.Do(j.world, c).wins, h) ==> Gone(j.store, h))
  }

  function CustodyStep(j: Joint, c: C.Action, releases: seq<(S.OpId, S.TokenId)>): Joint {
    Joint(ReleaseAll(j.store, releases), C.Do(j.world, c), j.published)
  }

  datatype Step =
    | StoreStep(a: S.Action)
    | Acquires(a: S.Action, b: L.BoxId, h: Hold)
    | Published(a: S.Action, b: L.BoxId, h: Hold)
    | Custody(c: C.Action, releases: seq<(S.OpId, S.TokenId)>)

  predicate CanStep(j: Joint, x: Step) {
    match x
    case StoreStep(a) => CanStoreStep(j, a)
    case Acquires(a, b, h) => CanAcquireStep(j, a, b, h)
    case Published(a, b, h) => CanPublishedStep(j, a, b, h)
    case Custody(c, releases) => CanCustodyStep(j, c, releases)
  }

  function DoStep(j: Joint, x: Step): Joint {
    match x
    case StoreStep(a) => j.(store := S.Do(j.store, a))
    case Acquires(a, b, h) => AcquireStep(j, a, b, h)
    case Published(a, b, h) => PublishedStep(j, a, h)
    case Custody(c, releases) => CustodyStep(j, c, releases)
  }

  ghost predicate IsRun(joints: seq<Joint>, steps: seq<Step>) {
    && |joints| == |steps| + 1
    && JInit(joints[0])
    && forall i :: 0 <= i < |steps| ==> CanStep(joints[i], steps[i]) && joints[i + 1] == DoStep(joints[i], steps[i])
  }

  // ---------------------------------------------------------------- the invariant

  /** The hold is a handle of the store on an entry with its reference; it is active until the chain
      starts releasing it, its entry is published once the frame knows it is, and a success means that the
      store has released it. */
  ghost predicate Backed(j: Joint, h: Hold) {
    var s := j.store;
    && h.id in s.tokens && s.tokens[h.id].kind == S.HoldToken && s.tokens[h.id].entry in s.heap
    && s.heap[s.tokens[h.id].entry].ref == h.ref
    && (C.Times(j.world.starts, h) == 0 ==> s.tokens[h.id].phase == S.Active)
    && (h in j.published ==> s.heap[s.tokens[h.id].entry].published)
    && (C.Times(j.world.wins, h) > 0 ==> Gone(s, h))
  }

  /** Out of its frame: in a lease, a transfer or an owner. */
  predicate Leased(w: C.World, h: Hold) {
    h in w.homes && match w.homes[h] case AtOwner(_) => true case AtBox(b) => b in w.boxes && w.boxes[b].kind != C.Frame
  }

  ghost predicate AllBacked(j: Joint) { forall h :: h in j.world.homes ==> Backed(j, h) }

  ghost predicate LeasedPublished(w: C.World, published: set<Hold>) { forall h :: Leased(w, h) ==> h in published }

  ghost predicate JInv(j: Joint) {
    && SI.Inv(j.store) && CI.WInv(j.world)
    && AllBacked(j) && LeasedPublished(j.world, j.published)
    && j.published <= j.world.homes.Keys
  }

  // ---------------------------------------------------------------- store steps

  /** Other steps of the store keep every handle of the chain. */
  lemma BackedKept(j: Joint, j': Joint, a: S.Action, h: Hold)
    requires SI.Inv(j.store) && S.Can(j.store, a) && j'.store == S.Do(j.store, a) && Backed(j, h)
    requires !SR.Releases(a, h.id)
    requires C.Times(j'.world.starts, h) == C.Times(j.world.starts, h) && (h in j'.published ==> h in j.published)
    requires C.Times(j'.world.wins, h) == C.Times(j.world.wins, h)
    ensures Backed(j', h)
  {
    hide SI.Inv, S.Can, S.Do;
    var s := j.store;
    SR.HandleStays(s, a, h.id);
    SR.EntryPersists(s, a, s.tokens[h.id].entry);
    if s.tokens[h.id].phase == S.Active { SR.ActiveKept(s, a, h.id); }
    if Gone(s, h) { SR.ReleasedKept(s, a, h.id); }
  }

  lemma StoreStepKept(j: Joint, a: S.Action)
    requires JInv(j) && CanStoreStep(j, a)
    ensures JInv(DoStep(j, StoreStep(a)))
  {
    hide SI.Inv, S.Can, S.Do, CI.WInv, Backed, LeasedPublished;
    SR.StepKept(j.store, a);
    var j' := j.(store := S.Do(j.store, a));
    forall h | h in j'.world.homes ensures Backed(j', h) {
      assert SR.Releases(a, h.id) ==> InCustody(j, h.id);
      BackedKept(j, j', a, h);
    }
  }

  // ---------------------------------------------------------------- acquisition

  lemma CreatedToken(s: S.Store, a: S.Action, t: S.TokenId)
    requires SI.Inv(s) && S.Can(s, a) && Creates(a, t)
    ensures var s' := S.Do(s, a);
            && t !in s.tokens && t in s'.tokens && s'.tokens[t].kind == S.HoldToken && s'.tokens[t].phase == S.Active
            && (a.Handle? ==> s'.tokens[t].entry in s'.heap && s'.heap[s'.tokens[t].entry].published)
  {
    hide SI.Inv, SI.OpOk;
    match a {
      case Stage(x) => if x.AStageCommit? {} else {}
      case Handle(x) => HoldIsPublished(s, x.o);
    }
  }

  lemma HoldIsPublished(s: S.Store, o: S.OpId)
    requires SI.Inv(s) && o in s.ops && s.ops[o].HoldVerifying?
    ensures s.ops[o].entry in s.heap && s.heap[s.ops[o].entry].published
  {
    hide SI.Inv, SI.CandidatesOk, SI.OnDisk;
    SS.OpFact(s, o);
  }

  lemma AcquireKept(j: Joint, a: S.Action, b: L.BoxId, h: Hold)
    requires JInv(j) && CanAcquireStep(j, a, b, h)
    ensures JInv(AcquireStep(j, a, b, h))
  {
    hide SI.Inv, S.Can, S.Do, CI.WInv, Backed, Leased, Creates;
    var j' := AcquireStep(j, a, b, h);
    SR.StepKept(j.store, a);
    CR.StepKept(j.world, C.AAcquire(b, h));
    CreatedToken(j.store, a, h.id);
    AcquireHistory(j.world, b, h);
    NewIsBacked(j, j', a, h);
    forall x | x in j'.world.homes ensures Backed(j', x) {
      if x != h {
        CreatesReleasesNothing(a, h.id, x.id);
        BackedKept(j, j', a, x);
      }
    }
    forall x | Leased(j'.world, x) ensures x in j'.published { AcquireLeases(j.world, b, h, x); }
  }

  lemma CreatesReleasesNothing(a: S.Action, t: S.TokenId, t2: S.TokenId)
    requires Creates(a, t)
    ensures !SR.Releases(a, t2)
  {
  }

  lemma NewIsBacked(j: Joint, j': Joint, a: S.Action, h: Hold)
    requires h.id in j'.store.tokens && j'.store.tokens[h.id].kind == S.HoldToken
    requires j'.store.tokens[h.id].phase == S.Active
    requires j'.store.tokens[h.id].entry in j'.store.heap && j'.store.heap[j'.store.tokens[h.id].entry].ref == h.ref
    requires a.Handle? ==> j'.store.heap[j'.store.tokens[h.id].entry].published
    requires h !in j.published && j'.published == if a.Handle? then j.published + {h} else j.published
    requires C.Times(j'.world.wins, h) == 0
    ensures Backed(j', h)
  {
    hide O.NewOwner;
  }

  lemma AcquireHistory(w: C.World, b: L.BoxId, h: Hold)
    requires CI.WInv(w) && C.CanAcquire(w, b, h)
    ensures var w' := C.Acquire(w, b, h);
      && h !in w.homes && w'.homes.Keys == w.homes.Keys + {h} && w'.starts == w.starts && w'.wins == w.wins
      && C.Times(w.wins, h) == 0
  {
    hide CI.Linear;
    CS.HistoryFact(w);
  }

  lemma AcquireLeases(w: C.World, b: L.BoxId, h: Hold, x: Hold)
    requires C.CanAcquire(w, b, h) && Leased(C.Acquire(w, b, h), x)
    ensures Leased(w, x)
  {
    hide O.NewOwner;
  }

  // ---------------------------------------------------------------- publication

  /** The entry that a publication is about is the one of the handle, and it is published afterwards. */
  lemma DonePublishes(s: S.Store, o: S.OpId, t: S.TokenId)
    requires SI.OpFine(s, o) && SI.TokensInv(s) && S.CanPublishDone(s, o) && s.ops[o].token == t && t in s.tokens
    requires s.tokens[t].phase == S.Active
    ensures var s' := S.PublishDone(s, o); s.tokens[t].entry in s'.heap && s'.heap[s.tokens[t].entry].published
  {
    hide SI.CandidatesOk, SI.OnDisk;
    assert SI.TokenOk(s, s.tokens[t]);
  }

  lemma EnterPublishes(s: S.Store, o: S.OpId, t: S.TokenId)
    requires SI.TokensInv(s) && S.CanPublishEnter(s, o) && t in s.tokens && Found(s, o, t)
    ensures var s' := S.PublishEnter(s, o); s.tokens[t].entry in s'.heap && s'.heap[s.tokens[t].entry].published
  {
    hide SI.OnDisk;
    assert SI.TokenOk(s, s.tokens[t]);
  }

  lemma PublishesPublishes(s: S.Store, a: S.Action, t: S.TokenId)
    requires SI.Inv(s) && Publishes(s, a, t) && t in s.tokens && s.tokens[t].phase == S.Active
    ensures var s' := S.Do(s, a); s.tokens[t].entry in s'.heap && s'.heap[s.tokens[t].entry].published
    ensures !SR.Releases(a, t)
  {
    hide SI.Inv, SI.OpFine, SI.TokensInv, S.CanHandleAction, S.DoHandleAction, Found, S.CanPublishDone,
      S.CanPublishEnter,
      S.PublishDone, S.PublishEnter;
    SR.HandleActionIs(s, a.handle);
    SS.OpFact(s, a.handle.o);
    SS.InvParts(s);
    if a.handle.APublishDone? { DonePublishes(s, a.handle.o, t); } else { EnterPublishes(s, a.handle.o, t); }
  }

  lemma PublishedKept(j: Joint, a: S.Action, b: L.BoxId, h: Hold)
    requires JInv(j) && CanPublishedStep(j, a, b, h)
    ensures JInv(PublishedStep(j, a, h))
  {
    hide SI.Inv, S.Can, S.Do, CI.WInv, Backed, Leased;
    var j' := PublishedStep(j, a, h);
    SR.StepKept(j.store, a);
    FrameHold(j.world, b, h);
    PublishesReleasesNothing(j.store, a, h.id);
    forall x | x in j'.world.homes ensures Backed(j', x) {
      assert Backed(j, x);
      if x != h { BackedKept(j, j', a, x); } else { NowPublished(j, j', a, h); }
    }
  }

  lemma PublishesReleasesNothing(s: S.Store, a: S.Action, t: S.TokenId)
    requires Publishes(s, a, t)
    ensures forall t2 :: !SR.Releases(a, t2)
  {
    hide O.NewOwner;
  }

  lemma FrameHold(w: C.World, b: L.BoxId, h: Hold)
    requires CI.WInv(w) && b in w.boxes && C.Pending(w.boxes[b]) && h in w.boxes[b].holds
    ensures h in w.homes && w.homes[h] == C.AtBox(b) && C.Times(w.starts, h) == 0
  {
    hide O.NewOwner;
    assert CI.BoxOk(w, b);
    var i :| 0 <= i < |w.boxes[b].holds| && w.boxes[b].holds[i] == h;
    assert CI.HoldInBox(w, b, w.boxes[b], i);
  }

  lemma NowPublished(j: Joint, j': Joint, a: S.Action, h: Hold)
    requires SI.Inv(j.store) && Backed(j, h) && C.Times(j.world.starts, h) == 0 && Publishes(j.store, a, h.id)
    requires S.Can(j.store, a) && j'.store == S.Do(j.store, a) && j'.world == j.world
    requires j'.published == j.published + {h}
    ensures Backed(j', h)
  {
    hide SI.Inv, S.Can, S.Do;
    var s := j.store;
    PublishesPublishes(s, a, h.id);
    SR.HandleStays(s, a, h.id);
    SR.EntryPersists(s, a, s.tokens[h.id].entry);
    SR.ActiveKept(s, a, h.id);
  }

  // ---------------------------------------------------------------- custody steps

  /** Homes only move on, and attempts only add up. */
  ghost predicate MovesOn(w: C.World, w': C.World) {
    && w'.homes.Keys == w.homes.Keys
    && (forall h :: C.Times(w.starts, h) <= C.Times(w'.starts, h))
  }

  ghost predicate LeasesNothing(w: C.World, w': C.World) { forall h :: Leased(w', h) ==> Leased(w, h) }

  lemma AdoptMovesOn(w: C.World, o: C.OwnerId, b: L.BoxId)
    requires CI.Linear(w) && C.CanAdoptInto(w, o, b)
    ensures MovesOn(w, C.AdoptInto(w, o, b)) && LeasesNothing(w, C.AdoptInto(w, o, b))
  {
    hide CI.Linear, O.Adopt, C.Times, C.Bump, C.Rehome, Leased;
    if C.Adoptable1(w, o, b) {
      CS.PendingHolds(w, b);
      PendingHome(w, b);
      var pair := C.TryAdopt(w.owners[o], w.boxes[b]).value;
      RehomeKeys(w.homes, Elements(pair.1.holds), C.AtOwner(o));
      BumpGrows(w.starts, pair.0.inFlight - w.owners[o].inFlight);
      AdoptLeases(w, o, b);
    } else {
      SameMoves(w);
    }
  }

  lemma SameMoves(w: C.World)
    ensures MovesOn(w, w) && LeasesNothing(w, w)
  {
  }

  lemma RehomeKeys(homes: map<Hold, C.Home>, hs: set<Hold>, home: C.Home)
    requires hs <= homes.Keys
    ensures C.Rehome(homes, hs, home).Keys == homes.Keys
  {
  }

  lemma BumpGrows(m: map<Hold, nat>, hs: set<Hold>)
    ensures forall h :: C.Times(m, h) <= C.Times(C.Bump(m, hs), h)
  {
  }

  lemma AdoptLeases(w: C.World, o: C.OwnerId, b: L.BoxId)
    requires CI.Linear(w) && C.CanAdoptInto(w, o, b) && C.Adoptable1(w, o, b)
    requires forall h :: h in w.boxes[b].holds ==> h in w.homes && w.homes[h] == C.AtBox(b)
    ensures LeasesNothing(w, C.AdoptInto(w, o, b))
  {
    hide CI.Linear, O.Adopt, C.Times, C.Bump;
  }

  lemma PendingHome(w: C.World, b: L.BoxId)
    requires CI.Linear(w) && b in w.boxes && C.Pending(w.boxes[b])
    ensures forall h :: h in w.boxes[b].holds ==> h in w.homes && w.homes[h] == C.AtBox(b)
  {
    hide O.NewOwner;
    assert CI.BoxOk(w, b);
    forall h | h in w.boxes[b].holds ensures h in w.homes && w.homes[h] == C.AtBox(b) {
      var i :| 0 <= i < |w.boxes[b].holds| && w.boxes[b].holds[i] == h;
      assert CI.HoldInBox(w, b, w.boxes[b], i);
    }
  }

  lemma {:induction false} DrainMovesOn(w: C.World, o: C.OwnerId, entries: seq<L.LedgerEntry>)
    requires CI.Linear(w) && o in w.owners && C.BoxesKnown(w, entries)
    ensures var w' := C.DrainFrom(w, o, entries).0; MovesOn(w, w') && LeasesNothing(w, w')
    decreases |entries|
  {
    hide CI.Linear, C.Adoptable1, C.AdoptInto, Leased, CR.Advances;
    if entries != [] {
      var e := entries[0];
      assert e == entries[0];
      if e.state != L.Waiting {
        DrainMovesOn(w, o, entries[1..]);
      } else if C.Adoptable1(w, o, e.box) {
        var w1 := C.AdoptInto(w, o, e.box);
        AdoptMovesOn(w, o, e.box);
        CS.AdoptLinear(w, o, e.box);
        CR.AdoptAdvances(w, o, e.box);
        CR.AdvancesKnown(w, w1, entries[1..]);
        DrainMovesOn(w1, o, entries[1..]);
      }
    }
  }

  lemma {:induction false} LetGoMovesOn(w: C.World, entries: seq<L.LedgerEntry>)
    requires C.BoxesKnown(w, entries)
    ensures var w' := C.LetGoFrom(w, entries).0; MovesOn(w, w') && LeasesNothing(w, w')
    decreases |entries|
  {
    if entries != [] {
      var e := entries[0];
      assert e == entries[0];
      var w1 := if e.state == L.Waiting then C.Cleanse(w, e.box) else w;
      LetGoMovesOn(w1, entries[1..]);
    }
  }

  lemma PassOnMovesOn(w: C.World, b: L.BoxId, next: L.BoxId)
    requires CI.Linear(w) && C.CanPassOn(w, b, next)
    ensures var w' := C.PassOn(w, b, next);
            MovesOn(w, w') && forall h :: Leased(w', h) ==>
              Leased(w, h) || (w.boxes[b].kind == C.Frame && h in w.boxes[b].holds)
  {
    hide CI.Linear;
    PendingHome(w, b);
    forall h | h in w.homes ensures w.homes[h] != C.AtBox(next) { CR.HomeFact(w, h); }
  }

  lemma OtherMovesOn(w: C.World, c: C.Action)
    requires C.Can(w, c) && !c.AAcquire? && !c.APassOn? && !c.AAdopt? && !c.ADrain? && !c.AReleaseRemaining?
    ensures MovesOn(w, C.Do(w, c)) && LeasesNothing(w, C.Do(w, c))
  {
    hide C.DoOwner, C.CanOwner, C.Attempts, L.AdmitTransfer, L.AdmitBytes;
  }

  lemma CustodyMovesOn(w: C.World, c: C.Action, published: set<Hold>)
    requires CI.WInv(w) && C.Can(w, c) && !c.AAcquire? && LeasedPublished(w, published)
    requires c.APassOn? && w.boxes[c.b].kind == C.Frame ==> Elements(w.boxes[c.b].holds) <= published
    ensures MovesOn(w, C.Do(w, c)) && LeasedPublished(C.Do(w, c), published)
  {
    hide CI.Linear, Leased, C.AdoptInto, C.PassOn, C.DrainFrom, C.LetGoFrom, CI.LedgersInv;
    match c {
      case APassOn(b, next) =>
        PassOnMovesOn(w, b, next);
        forall h | Leased(C.Do(w, c), h)
          ensures h in published
        {
          assert h in w.boxes[b].holds ==> h in Elements(w.boxes[b].holds);
        }
      case AAdopt(o, b) => AdoptMovesOn(w, o, b);
      case ADrain(l, o) =>
        DrainMovesOn(w, o, w.ledgers[l].entries); SameLeases(C.DrainFrom(w, o, w.ledgers[l].entries).0, C.Do(w, c));
      case AReleaseRemaining(l) =>
        LetGoMovesOn(w, w.ledgers[l].entries); SameLeases(C.LetGoFrom(w, w.ledgers[l].entries).0, C.Do(w, c));
      case _ => OtherMovesOn(w, c);
    }
  }

  lemma SameLeases(w: C.World, w': C.World)
    requires w'.boxes == w.boxes && w'.homes == w.homes
    ensures forall h :: Leased(w', h) <==> Leased(w, h)
  {
  }

  lemma ReleaseCallIs(s: S.Store, o: S.OpId, t: S.TokenId)
    requires S.CanReleaseCall(s, o, t)
    ensures S.Can(s, S.Handle(S.AReleaseCall(o, t)))
    ensures S.Do(s, S.Handle(S.AReleaseCall(o, t))) == S.ReleaseCall(s, o, t)
    ensures var s' := S.ReleaseCall(s, o, t);
      && s'.heap == s.heap && t in s.tokens && s'.tokens == s.tokens[t := s.tokens[t].(phase := S.Releasing(o))]
      && s.tokens[t].phase == S.Active
  {
    hide S.Enqueue;
    ReleaseCallShape(s, o, t);
  }

  lemma ReleaseCallShape(s: S.Store, o: S.OpId, t: S.TokenId)
    requires S.CanReleaseCall(s, o, t)
    ensures var s' := S.ReleaseCall(s, o, t);
      && s'.heap == s.heap && t in s.tokens && s'.tokens == s.tokens[t := s.tokens[t].(phase := S.Releasing(o))]
      && s.tokens[t].phase == S.Active
  {
    hide S.AtHead;
  }

  /** The releases touch only the handles they name, none of which stays active, and no handle that is not. */
  ghost predicate HandlesKept(s: S.Store, s': S.Store, releases: seq<(S.OpId, S.TokenId)>) {
    && s'.heap == s.heap && s'.tokens.Keys == s.tokens.Keys
    && (forall t :: t in s.tokens ==>
         s'.tokens[t].kind == s.tokens[t].kind && s'.tokens[t].entry == s.tokens[t].entry)
    && (forall t :: t in s.tokens && (forall r :: r in releases ==> r.1 != t) ==> s'.tokens[t] == s.tokens[t])
    && (forall t :: t in s.tokens && s.tokens[t].phase != S.Active ==> s'.tokens[t] == s.tokens[t])
    && (forall r :: r in releases ==> r.1 in s.tokens && s'.tokens[r.1].phase != S.Active)
  }

  lemma OneCallKept(s: S.Store, s1: S.Store, s2: S.Store, releases: seq<(S.OpId, S.TokenId)>)
    requires releases != [] && s1.heap == s.heap && releases[0].1 in s.tokens && HandlesKept(s1, s2, releases[1..])
    requires s.tokens[releases[0].1].phase == S.Active
    requires s1.tokens ==
      s.tokens[releases[0].1 := s.tokens[releases[0].1].(phase := S.Releasing(releases[0].0))]
    ensures HandlesKept(s, s2, releases)
  {
    var r := releases[0];
    assert forall x :: x in releases <==> x == r || x in releases[1..];
  }

  lemma {:induction false} ReleasesKeep(s: S.Store, releases: seq<(S.OpId, S.TokenId)>)
    requires SI.Inv(s) && CanRelease(s, releases)
    ensures SI.Inv(ReleaseAll(s, releases)) && HandlesKept(s, ReleaseAll(s, releases), releases)
    decreases |releases|
  {
    hide SI.Inv, S.Can, S.Do, S.CanReleaseCall, S.ReleaseCall, SI.Steps, HandlesKept;
    if releases != [] {
      var r := releases[0];
      var s1 := S.ReleaseCall(s, r.0, r.1);
      ReleaseCallIs(s, r.0, r.1);
      SR.StepKept(s, S.Handle(S.AReleaseCall(r.0, r.1)));
      ReleasesKeep(s1, releases[1..]);
      OneCallKept(s, s1, ReleaseAll(s, releases), releases);
    } else {
      NothingCalled(s);
    }
  }

  lemma NothingCalled(s: S.Store)
    ensures HandlesKept(s, s, [])
  {
  }

  lemma CustodyBacked(j: Joint, j': Joint, releases: seq<(S.OpId, S.TokenId)>, h: Hold)
    requires SI.Inv(j.store) && CanRelease(j.store, releases) && Backed(j, h) && j'.published == j.published
    requires j'.store == ReleaseAll(j.store, releases) && MovesOn(j.world, j'.world)
    requires forall r :: r in releases && r.1 == h.id ==> C.Times(j'.world.starts, h) > 0
    requires Rises(j.world.wins, j'.world.wins, h) ==> Gone(j.store, h)
    ensures Backed(j', h)
  {
    hide SI.Inv, ReleaseAll, CanRelease;
    ReleasesKeep(j.store, releases);
  }

  lemma StartsOne(w: C.World, w': C.World, h: Hold)
    requires CI.WInv(w') && h in w'.homes && Starts(w, w', h.id)
    ensures C.Times(w'.starts, h) > 0
  {
    hide O.NewOwner;
    var x :| x in w'.homes && x.id == h.id && C.Times(w'.starts, x) > C.Times(w.starts, x);
    assert x == h by { assert CI.HomesInv(w'); }
  }

  lemma CustodyKept(j: Joint, c: C.Action, releases: seq<(S.OpId, S.TokenId)>)
    requires JInv(j) && CanCustodyStep(j, c, releases)
    ensures JInv(CustodyStep(j, c, releases))
  {
    hide SI.Inv, CI.WInv, Backed, LeasedPublished, C.Do, C.Can, ReleaseAll, CanRelease, Starts;
    var j' := CustodyStep(j, c, releases);
    CR.StepKept(j.world, c);
    CustodyMovesOn(j.world, c, j.published);
    ReleasesKeep(j.store, releases);
    forall h | h in j'.world.homes ensures Backed(j', h) {
      forall r | r in releases && r.1 == h.id
        ensures C.Times(j'.world.starts, h) > 0
      {
        StartsOne(j.world, j'.world, h);
      }
      CustodyBacked(j, j', releases, h);
    }
  }

  // ---------------------------------------------------------------- the theorem

  lemma StepKept(j: Joint, x: Step)
    requires JInv(j) && CanStep(j, x)
    ensures JInv(DoStep(j, x))
  {
    hide JInv, CanStoreStep, CanAcquireStep, CanPublishedStep, CanCustodyStep, AcquireStep, PublishedStep, CustodyStep;
    match x {
      case StoreStep(a) => StoreStepKept(j, a);
      case Acquires(a, b, h) => AcquireKept(j, a, b, h);
      case Published(a, b, h) => PublishedKept(j, a, b, h);
      case Custody(c, releases) => CustodyKept(j, c, releases);
    }
  }

  lemma InitInv(j: Joint)
    requires JInit(j)
    ensures JInv(j)
  {
    SR.InitInv(j.store);
    CR.InitInv(j.world);
  }

  lemma {:induction false} RunInv(joints: seq<Joint>, steps: seq<Step>, i: nat)
    requires IsRun(joints, steps) && i < |joints|
    ensures JInv(joints[i])
    decreases i
  {
    hide JInv, CanStep, DoStep, JInit;
    if i == 0 {
      InitInv(joints[0]);
    } else {
      RunInv(joints, steps, i - 1);
      StepKept(joints[i - 1], steps[i - 1]);
    }
  }

  lemma BackedReadable(j: Joint, h: Hold)
    requires JInv(j) && h in j.world.homes && C.Times(j.world.starts, h) == 0 && h in j.published
    ensures SR.Readable(j.store, h.ref)
  {
    hide SI.Inv, CI.WInv, SR.Readable;
    assert Backed(j, h);
    SR.HeldIsReadable(j.store, h.id, h.ref);
  }

  /** Every content reference an owner exposes before its release begins can be read from the store:
      registered, not being deleted, complete and published on disk. */
  lemma OwnedContentIsReadable(joints: seq<Joint>, steps: seq<Step>, i: nat, o: C.OwnerId, ref: Ref)
    requires IsRun(joints, steps) && i < |joints| && o in joints[i].world.owners
    requires O.Open(joints[i].world.owners[o]) && ref in O.OwnedRefs(joints[i].world.owners[o])
    ensures SR.Readable(joints[i].store, ref)
  {
    hide IsRun, JInv, SR.Readable, CI.Linear, O.Open;
    var j := joints[i];
    RunInv(joints, steps, i);
    JParts(j);
    var owner := j.world.owners[o];
    CS.OwnerFact(j.world, o);
    OpenRegister(owner);
    var k :| k in owner.byKey && owner.byKey[k].ref == ref;
    var h := owner.byKey[k];
    assert CI.HoldAtOwner(j.world, o, owner, h);
    assert Leased(j.world, h);
    BackedReadable(j, h);
  }

  lemma OpenRegister(owner: O.Owner)
    requires O.OwnerOk(owner) && O.Open(owner)
    ensures forall k :: k in owner.byKey ==> owner.byKey[k] in owner.primary && owner.byKey[k] in owner.adopted
  {
    hide O.NewOwner;
  }

  lemma JParts(j: Joint)
    requires JInv(j)
    ensures CI.Linear(j.world) && LeasedPublished(j.world, j.published) && CI.WInv(j.world)
  {
    hide O.NewOwner;
  }

  /** The same holds from the end of externalization on: content in a pending lease or transfer. */
  lemma LeasedContentIsReadable(joints: seq<Joint>, steps: seq<Step>, i: nat, b: L.BoxId, h: Hold)
    requires IsRun(joints, steps) && i < |joints| && b in joints[i].world.boxes
    requires C.Pending(joints[i].world.boxes[b]) && joints[i].world.boxes[b].kind != C.Frame
    requires h in joints[i].world.boxes[b].holds
    ensures SR.Readable(joints[i].store, h.ref)
  {
    hide IsRun, JInv, SR.Readable, CI.Linear, CI.WInv;
    var j := joints[i];
    RunInv(joints, steps, i);
    JParts(j);
    FrameHold(j.world, b, h);
    assert Leased(j.world, h);
    BackedReadable(j, h);
  }

  lemma StepTaken(joints: seq<Joint>, steps: seq<Step>, i: nat)
    requires IsRun(joints, steps) && i < |steps|
    ensures |joints| == |steps| + 1 && CanStep(joints[i], steps[i]) && joints[i + 1] == DoStep(joints[i], steps[i])
  {
    hide CanStep, DoStep, JInit;
  }

  /** No attempt goes astray: once the chain has started to release a hold, its handle is no longer active. */
  lemma AttemptIsCalled(joints: seq<Joint>, steps: seq<Step>, i: nat, h: Hold)
    requires IsRun(joints, steps) && i < |steps| && h in joints[i].world.homes
    requires Rises(joints[i].world.starts, joints[i + 1].world.starts, h)
    ensures h.id in joints[i + 1].store.tokens && joints[i + 1].store.tokens[h.id].phase != S.Active
  {
    hide IsRun, SI.Inv, CI.WInv, C.Do, C.Can, ReleaseAll, CanRelease, Starts;
    StepTaken(joints, steps, i);
    var j := joints[i];
    RunInv(joints, steps, i);
    assert Backed(j, h);
    match steps[i] {
      case Custody(c, releases) =>
        ReleasesKeep(j.store, releases);
        CustodyMovesOn(j.world, c, j.published);
        assert Calls(j.store, releases, h);
      case Acquires(a, b, x) => AcquireHistory(j.world, b, x);
      case _ =>
    }
  }

  /** Nothing leaks: when an owner is closed, the store has released every hold the owner ever adopted, so that none
      of them counts for its content any more. */
  lemma ClosedOwnerHoldsNothing(joints: seq<Joint>, steps: seq<Step>, i: nat, o: C.OwnerId, h: Hold)
    requires IsRun(joints, steps) && i < |joints| && o in joints[i].world.owners
    requires joints[i].world.owners[o].phase.Closed? && h in joints[i].world.owners[o].adopted
    ensures Gone(joints[i].store, h)
  {
    hide IsRun, JInv, CI.Linear, O.OwnerOk;
    var j := joints[i];
    RunInv(joints, steps, i);
    JParts(j);
    CS.OwnerFact(j.world, o);
    ClosedOwner(j.world.owners[o]);
    assert CI.HoldAtOwner(j.world, o, j.world.owners[o], h);
    JBacked(j, h);
  }

  lemma ClosedOwner(owner: O.Owner)
    requires O.OwnerOk(owner) && owner.phase.Closed?
    ensures owner.freed == owner.adopted
  {
  }

  lemma JBacked(j: Joint, h: Hold)
    requires JInv(j) && h in j.world.homes
    ensures Backed(j, h)
  {
    hide SI.Inv, CI.WInv, Backed;
  }

  // ---------------------------------------------------------------- the store never stands in the way

  lemma {:induction false} FreshOp(ids: set<S.OpId>) returns (o: S.OpId)
    ensures forall i :: i in ids ==> i < o
    decreases |ids|
  {
    o := 0;
    if ids != {} {
      var i :| i in ids;
      var n := FreshOp(ids - {i});
      o := Max(n, i + 1);
      assert forall k :: k in ids ==> k == i || k in ids - {i};
    }
  }

  predicate OneHandleEach(hs: set<Hold>) { forall x, y :: x in hs && y in hs && x.id == y.id ==> x == y }

  predicate AllActive(s: S.Store, hs: set<Hold>) {
    forall h :: h in hs ==> h.id in s.tokens && s.tokens[h.id].phase == S.Active
  }

  predicate Named(releases: seq<(S.OpId, S.TokenId)>, t: S.TokenId) { exists r :: r in releases && r.1 == t }

  predicate HandleOfOne(hs: set<Hold>, t: S.TokenId) { exists h :: h in hs && h.id == t }

  ghost predicate Names(releases: seq<(S.OpId, S.TokenId)>, hs: set<Hold>) {
    forall t :: Named(releases, t) <==> HandleOfOne(hs, t)
  }

  /** Active handles can all be released in one go. */
  lemma {:induction false} ReleaseCallsFor(s: S.Store, hs: set<Hold>) returns (releases: seq<(S.OpId, S.TokenId)>)
    requires OneHandleEach(hs) && AllActive(s, hs)
    ensures CanRelease(s, releases) && Names(releases, hs)
    decreases |hs|
  {
    hide S.ReleaseCall, S.CanReleaseCall;
    releases := [];
    if h :| h in hs {
      var o := FreshOp(s.ops.Keys);
      CanCall(s, o, h.id);
      ReleaseCallShape(s, o, h.id);
      var rest := ReleaseCallsFor(S.ReleaseCall(s, o, h.id), hs - {h});
      releases := [(o, h.id)] + rest;
      assert releases[0] == (o, h.id) && releases[1..] == rest;
      NamesMore(rest, hs, h, o);
    } else {
      assert Names([], {});
    }
  }

  lemma CanCall(s: S.Store, o: S.OpId, t: S.TokenId)
    requires (forall i :: i in s.ops ==> i < o) && t in s.tokens && s.tokens[t].phase == S.Active
    ensures S.CanReleaseCall(s, o, t)
  {
  }

  lemma NamesMore(rest: seq<(S.OpId, S.TokenId)>, hs: set<Hold>, h: Hold, o: S.OpId)
    requires h in hs && Names(rest, hs - {h})
    ensures Names([(o, h.id)] + rest, hs)
  {
    hide Named, HandleOfOne;
    forall t ensures Named([(o, h.id)] + rest, t) <==> HandleOfOne(hs, t) {
      NamedMore((o, h.id), rest, t);
      OneMoreHandle(hs, h, t);
    }
  }

  lemma NamedMore(r: (S.OpId, S.TokenId), rest: seq<(S.OpId, S.TokenId)>, t: S.TokenId)
    ensures Named([r] + rest, t) <==> r.1 == t || Named(rest, t)
  {
    assert ([r] + rest)[0] == r;
    assert forall x :: x in [r] + rest <==> x == r || x in rest;
  }

  lemma OneMoreHandle(hs: set<Hold>, h: Hold, t: S.TokenId)
    requires h in hs
    ensures HandleOfOne(hs, t) <==> h.id == t || HandleOfOne(hs - {h}, t)
  {
  }

  /** The holds a step of the chain starts to release and whose handles are active. */
  function Attempted(j: Joint, w': C.World): set<Hold> {
    set h | h in w'.homes && Rises(j.world.starts, w'.starts, h) && h.id in j.store.tokens
            && j.store.tokens[h.id].phase == S.Active
  }

  /** What the combined system adds to the guards of the chain: a frame waits until its content is published, and a
      success for the store. */
  predicate MayGo(j: Joint, c: C.Action) {
    && C.Can(j.world, c)
    && (c.APassOn? && j.world.boxes[c.b].kind == C.Frame ==> Elements(j.world.boxes[c.b].holds) <= j.published)
    && forall h :: h in C.Do(j.world, c).homes && Rises(j.world.wins, C.Do(j.world, c).wins, h) ==> Gone(j.store, h)
  }

  /** Whatever the chain may do by itself, it may do together with the store: the releases it starts can be called. */
  lemma ChainIsNeverRefused(joints: seq<Joint>, steps: seq<Step>, i: nat, c: C.Action)
    requires IsRun(joints, steps) && i < |joints| && !c.AAcquire?
    ensures (exists releases :: CanStep(joints[i], Custody(c, releases))) <==> MayGo(joints[i], c)
  {
    hide IsRun, JInv, C.Do, C.Can, CanRelease, Starts, Gone, Rises, Elements;
    RunInv(joints, steps, i);
    if MayGo(joints[i], c) { ChainGoes(joints[i], c); }
  }

  lemma ChainGoes(j: Joint, c: C.Action)
    requires JInv(j) && MayGo(j, c) && !c.AAcquire?
    ensures exists releases :: CanStep(j, Custody(c, releases))
  {
    hide JInv, CI.WInv, C.Do, C.Can, CanRelease, Gone, Elements;
    JParts(j);
    CR.StepKept(j.world, c);
    var w' := C.Do(j.world, c);
    var hs := Attempted(j, w');
    OneHandle(w', hs);
    var releases := ReleaseCallsFor(j.store, hs);
    forall r | r in releases ensures Starts(j.world, w', r.1) {
      assert Named(releases, r.1) && HandleOfOne(hs, r.1);
      var h :| h in hs && h.id == r.1;
    }
    forall h | h in w'.homes && Rises(j.world.starts, w'.starts, h) ensures Calls(j.store, releases, h) {
      if h.id in j.store.tokens && j.store.tokens[h.id].phase == S.Active {
        assert h in hs && HandleOfOne(hs, h.id);
        assert Named(releases, h.id);
      }
    }
    assert CanStep(j, Custody(c, releases));
  }

  lemma OneHandle(w: C.World, hs: set<Hold>)
    requires CI.WInv(w) && hs <= w.homes.Keys
    ensures OneHandleEach(hs)
  {
    assert CI.HomesInv(w);
  }

  /** Every hold the store hands out can be recorded by a frame that is still collecting. */
  lemma EveryHoldFindsAFrame(joints: seq<Joint>, steps: seq<Step>, i: nat, a: S.Action, t: S.TokenId, b: L.BoxId)
    requires IsRun(joints, steps) && i < |joints| && S.Can(joints[i].store, a) && Creates(a, t)
    requires b in joints[i].world.boxes && joints[i].world.boxes[b].kind == C.Frame
    requires C.Pending(joints[i].world.boxes[b])
    ensures exists h: Hold :: h.id == t && CanStep(joints[i], Acquires(a, b, h))
  {
    hide IsRun, SI.Inv, CI.WInv, S.Can, S.Do, Creates, LeasedPublished;
    var j := joints[i];
    RunInv(joints, steps, i);
    CreatedToken(j.store, a, t);
    SR.StepKept(j.store, a);
    var s' := S.Do(j.store, a);
    HandleHasEntry(s', t);
    var h := Hold(t, s'.heap[s'.tokens[t].entry].ref);
    forall x | x in j.world.homes ensures x.id != t { assert Backed(j, x); }
    assert CanStep(j, Acquires(a, b, h));
  }

  lemma HandleHasEntry(s: S.Store, t: S.TokenId)
    requires SI.Inv(s) && t in s.tokens
    ensures s.tokens[t].entry in s.heap
  {
    hide SI.Inv;
    SS.TokenFact(s, t);
  }
}

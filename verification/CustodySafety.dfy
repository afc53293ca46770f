/** Every step of the custody chain keeps it linear. */
module CustodySafety {
  import opened Prelude
  import opened ContentRefs
  import opened OwnerModel
  import opened LedgerModel
  import opened CustodyModel
  import opened CustodyInvariant

  // ---------------------------------------------------------------- boxes

  lemma NewFrameLinear(w: World, b: BoxId)
    requires Linear(w) && CanNewFrame(w, b)
    ensures Linear(NewFrame(w, b))
  {
    hide Sum;
    var w' := NewFrame(w, b);
    forall b2 | b2 in w'.boxes ensures BoxOk(w', b2) {
      if b2 != b {
        assert BoxOk(w, b2);
        forall i | 0 <= i < |w.boxes[b2].holds| && !w.boxes[b2].passedOn ensures HoldInBox(w', b2, w'.boxes[b2], i) {
          assert HoldInBox(w, b2, w.boxes[b2], i);
        }
      }
    }
    forall o | o in w'.owners ensures OwnerKept(w', o) {
      assert OwnerKept(w, o);
      forall h | h in w.owners[o].adopted
        ensures HoldAtOwner(w', o, w'.owners[o], h)
      {
        assert HoldAtOwner(w, o, w.owners[o], h);
      }
    }
    forall h | h in w'.homes ensures HomeOk(w', h) { assert HomeOk(w, h); }
  }

  lemma AcquiredBox(w: World, b: BoxId, h: Hold)
    requires Linear(w) && CanAcquire(w, b, h)
    ensures BoxOk(Acquire(w, b, h), b)
  {
    hide Sum;
    var w' := Acquire(w, b, h);
    var holds := w.boxes[b].holds;
    assert BoxOk(w, b);
    forall i | 0 <= i < |holds| ensures holds[i] in w.homes && HoldInBox(w', b, w'.boxes[b], i) {
      assert HoldInBox(w, b, w.boxes[b], i);
    }
    assert HoldInBox(w', b, w'.boxes[b], |holds|);
  }

  lemma AcquireLinear(w: World, b: BoxId, h: Hold)
    requires Linear(w) && CanAcquire(w, b, h)
    ensures Linear(Acquire(w, b, h))
  {
    hide OwnerOk;
    var w' := Acquire(w, b, h);
    assert h !in w.homes;
    forall b2 | b2 in w'.boxes ensures BoxOk(w', b2) {
      if b2 == b {
        AcquiredBox(w, b, h);
      } else {
        assert BoxOk(w, b2);
        forall i | 0 <= i < |w.boxes[b2].holds| && !w.boxes[b2].passedOn ensures HoldInBox(w', b2, w'.boxes[b2], i) {
          assert HoldInBox(w, b2, w.boxes[b2], i);
        }
      }
    }
    forall o | o in w'.owners ensures OwnerKept(w', o) {
      assert OwnerKept(w, o);
      forall x | x in w.owners[o].adopted
        ensures HoldAtOwner(w', o, w'.owners[o], x)
      {
        assert HoldAtOwner(w, o, w.owners[o], x);
      }
    }
    forall x | x in w'.homes ensures HomeOk(w', x) {
      if x == h {
        assert w'.boxes[b].holds[|w.boxes[b].holds|] == h;
      } else {
        assert HomeOk(w, x);
        AcquiredStill(w, b, h, x);
      }
    }
  }

  lemma AcquiredStill(w: World, b: BoxId, h: Hold, x: Hold)
    requires CanAcquire(w, b, h) && x in w.homes && HomeOk(w, x)
    ensures x in Acquire(w, b, h).homes && (x != h ==> HomeOk(Acquire(w, b, h), x))
  {
    hide Sum;
    var holds := w.boxes[b].holds;
    assert forall y :: y in holds ==> y in holds + [h];
  }

  lemma CleanseLinear(w: World, b: BoxId)
    requires Linear(w) && b in w.boxes
    ensures Linear(Cleanse(w, b))
  {
    hide Sum;
    var w' := Cleanse(w, b);
    assert BoxOk(w, b);
    if Pending(w.boxes[b]) {
      forall i | 0 <= i < |w.boxes[b].holds|
        ensures HoldInBox(w', b, w'.boxes[b], i)
      {
        assert HoldInBox(w, b, w.boxes[b], i);
      }
      BoxChange(w, w', b);
    } else {
      assert w' == w;
    }
  }

  /** Which hold of a box is attempted: distinct positions are distinct holds. */
  lemma AttemptHistory(w: World, b: BoxId, k: nat)
    requires Linear(w) && b in w.boxes && !w.boxes[b].passedOn && k < |w.boxes[b].holds|
    ensures var h := w.boxes[b].holds[k]; h in w.homes && w.homes[h] == AtBox(b)
    ensures forall i :: 0 <= i < |w.boxes[b].holds| && i != k ==> w.boxes[b].holds[i] != w.boxes[b].holds[k]
  {
    hide Sum;
    assert BoxOk(w, b);
    assert HoldInBox(w, b, w.boxes[b], k);
  }

  lemma StartReleaseLinear(w: World, b: BoxId)
    requires Linear(w) && CanStartRelease(w, b)
    ensures Linear(StartRelease(w, b))
  {
    hide OwnerOk;
    var w' := StartRelease(w, b);
    var k := w.boxes[b].cleanup.left - 1;
    assert BoxOk(w, b);
    AttemptHistory(w, b, k);
    forall i | 0 <= i < |w.boxes[b].holds|
      ensures HoldInBox(w', b, w'.boxes[b], i)
    {
      assert HoldInBox(w, b, w.boxes[b], i);
    }
    assert OnlyAt(w, w', AtBox(b));
    BoxChange(w, w', b);
  }

  lemma SettleReleaseLinear(w: World, b: BoxId, ok: bool)
    requires Linear(w) && CanFinishRelease1(w, b)
    ensures Linear(SettleRelease(w, b, ok))
  {
    hide OwnerOk;
    var w' := SettleRelease(w, b, ok);
    var k := w.boxes[b].cleanup.left - 1;
    assert BoxOk(w, b);
    AttemptHistory(w, b, k);
    forall i | 0 <= i < |w.boxes[b].holds|
      ensures HoldInBox(w', b, w'.boxes[b], i)
    {
      assert HoldInBox(w, b, w.boxes[b], i);
    }
    assert OnlyAt(w, w', AtBox(b));
    BoxChange(w, w', b);
  }

  lemma EndCleanupLinear(w: World, b: BoxId)
    requires Linear(w) && CanEnd(w, b)
    ensures Linear(EndCleanup(w, b))
  {
    hide Sum;
    var w' := EndCleanup(w, b);
    assert BoxOk(w, b);
    forall i | 0 <= i < |w.boxes[b].holds|
      ensures HoldInBox(w', b, w'.boxes[b], i)
    {
      assert HoldInBox(w, b, w.boxes[b], i);
    }
    BoxChange(w, w', b);
  }

  lemma PassOnBoxes(w: World, b: BoxId, next: BoxId)
    requires Linear(w) && CanPassOn(w, b, next)
    ensures var w' := PassOn(w, b, next); BoxOk(w', b) && BoxOk(w', next)
  {
    hide Sum;
    var w' := PassOn(w, b, next);
    assert BoxOk(w, b);
    forall i | 0 <= i < |w.boxes[b].holds|
      ensures HoldInBox(w', next, w'.boxes[next], i)
    {
      assert HoldInBox(w, b, w.boxes[b], i);
    }
  }

  lemma PassOnMoves(w: World, b: BoxId, next: BoxId)
    requires Linear(w) && CanPassOn(w, b, next)
    ensures Moves(w, PassOn(w, b, next), Elements(w.boxes[b].holds), AtBox(next))
  {
    hide Sum;
  }

  lemma PassOnLinear(w: World, b: BoxId, next: BoxId)
    requires Linear(w) && CanPassOn(w, b, next)
    ensures Linear(PassOn(w, b, next))
  {
    hide Moves, BoxOk, OwnerKept, HomesInv, Linear, Elements;
    var w' := PassOn(w, b, next);
    var hs := Elements(w.boxes[b].holds);
    PassOnMoves(w, b, next);
    PassOnBoxes(w, b, next);
    forall b2 | b2 in w'.boxes ensures BoxOk(w', b2) {
      if b2 != b && b2 != next { OthersKept(w, w', b, hs, AtBox(next), b2); }
    }
    forall o | o in w'.owners ensures OwnerKept(w', o) { OtherOwnersKept(w, w', b, hs, AtBox(next), o); }
    PassOnHomes(w, b, next);
    HomesMoved(w, w', b, hs, AtBox(next));
    GlueLinear(w');
  }

  lemma PassOnHomes(w: World, b: BoxId, next: BoxId)
    requires CanPassOn(w, b, next)
    ensures var w' := PassOn(w, b, next); forall h :: h in Elements(w.boxes[b].holds) ==> h in w'.homes && HomeOk(w', h)
  {
  }

  lemma GlueLinear(w: World)
    requires (forall b :: b in w.boxes ==> BoxOk(w, b)) && (forall o :: o in w.owners ==> OwnerKept(w, o))
    requires HomesInv(w)
    ensures Linear(w)
  {
    hide Sum;
  }

  // ---------------------------------------------------------------- owners

  /** One step of an owner: what it attempts is still owned, what it frees was owned, and as long as it
      is open its register and its primary holds are left alone. */
  lemma OwnerStepFacts(o: Owner, a: OwnerAction)
    requires OwnerOk(o) && CanOwner(o, a)
    ensures var o' := DoOwner(o, a);
            && OwnerOk(o') && o'.adopted == o.adopted
            && Attempts(o, a) <= o.owned
            && o.freed <= o'.freed && o'.freed - o.freed <= o.owned
            && (Open(o') ==> Open(o) && Attempts(o, a) == {} && o'.primary == o.primary && o'.byKey == o.byKey)
  {
    hide Sum;
    match a
    case OSeal => SealKeeps(o);
    case OSettleCleanup(h, ok) => SettleCleanupKeeps(o, h, ok);
    case OBeginRelease => BeginReleaseKeeps(o);
    case OStartDuplicates => StartDuplicatesKeeps(o);
    case OSettleDuplicate(h, ok) => SettleDuplicateKeeps(o, h, ok);
    case OStartPrimaries => StartPrimariesKeeps(o);
    case ONextPrimary => NextPrimaryKeeps(o);
    case OSettlePrimary(ok) => SettlePrimaryKeeps(o, ok);
    case OFinishRelease => FinishReleaseKeeps(o);
  }

  lemma OwnerFact(w: World, o: OwnerId)
    requires Linear(w) && o in w.owners
    ensures OwnerOk(w.owners[o]) && w.owners[o].owned <= w.owners[o].adopted && w.owners[o].freed <= w.owners[o].adopted
    ensures forall h :: h in w.owners[o].adopted ==> HoldAtOwner(w, o, w.owners[o], h)
  {
    hide Sum;
    assert OwnerKept(w, o);
  }

  lemma HistoryFact(w: World)
    requires Linear(w)
    ensures w.starts.Keys <= w.homes.Keys && w.wins.Keys <= w.homes.Keys
  {
  }

  /** Attempts and successes of an owner's step are recorded on holds of that owner only. */
  lemma OwnerStepHistory(w: World, w': World, o: OwnerId, tried: set<Hold>, freed: set<Hold>)
    requires Linear(w) && o in w.owners && tried <= w.owners[o].owned && freed <= w.owners[o].owned
    requires w'.homes == w.homes && w'.starts == Bump(w.starts, tried) && w'.wins == Bump(w.wins, freed)
    ensures OnlyAt(w, w', AtOwner(o))
  {
    hide Linear, OwnerOk, Open;
    OwnerFact(w, o);
    HistoryFact(w);
  }

  lemma OwnerStepHolds(w: World, w': World, o: OwnerId, before: Owner, after: Owner, tried: set<Hold>, h: Hold)
    requires HoldAtOwner(w, o, before, h) && h in before.adopted && before.freed <= after.freed
    requires w'.homes == w.homes && w'.starts == Bump(w.starts, tried)
    requires w'.wins == Bump(w.wins, after.freed - before.freed)
    requires Open(after) ==> Open(before) && tried == {} && after.primary == before.primary
    ensures HoldAtOwner(w', o, after, h)
  {
    hide Sum;
  }

  lemma OwnerStepLinear(w: World, o: OwnerId, a: OwnerAction)
    requires Linear(w) && CanOwnerStep(w, o, a)
    ensures Linear(OwnerStep(w, o, a))
  {
    hide Linear, OwnerOk, DoOwner, Attempts, CanOwner, HoldAtOwner, Open, OnlyAt, Bump;
    var w' := OwnerStep(w, o, a);
    var before, after := w.owners[o], w'.owners[o];
    OwnerFact(w, o);
    OwnerStepFacts(before, a);
    forall h | h in after.adopted ensures HoldAtOwner(w', o, after, h) {
      OwnerStepHolds(w, w', o, before, after, Attempts(before, a), h);
    }
    OwnerStepHistory(w, w', o, Attempts(before, a), after.freed - before.freed);
    OwnerChange(w, w', o);
  }

  lemma NewOwnerLinear(w: World, o: OwnerId, epoch: string)
    requires Linear(w) && o !in w.owners
    ensures Linear(PutOwner(w, o, NewOwner(epoch)))
  {
    hide Sum, Pending;
    var w' := PutOwner(w, o, NewOwner(epoch));
    forall b | b in w'.boxes ensures BoxOk(w', b) {
      assert BoxOk(w, b);
      forall i | 0 <= i < |w.boxes[b].holds| && !w.boxes[b].passedOn ensures HoldInBox(w', b, w'.boxes[b], i) {
        assert HoldInBox(w, b, w.boxes[b], i);
      }
    }
    forall o2 | o2 in w'.owners ensures OwnerKept(w', o2) {
      if o2 != o {
        assert OwnerKept(w, o2);
        forall h | h in w.owners[o2].adopted
          ensures HoldAtOwner(w', o2, w'.owners[o2], h)
        {
          assert HoldAtOwner(w, o2, w.owners[o2], h);
        }
      }
    }
    forall h | h in w'.homes ensures HomeOk(w', h) { assert HomeOk(w, h); }
  }

  // ---------------------------------------------------------------- adoption

  /** A pending box's holds are no owner's yet. */
  lemma PendingIsFresh(w: World, o: OwnerId, b: BoxId)
    requires Linear(w) && CanAdoptInto(w, o, b) && !w.boxes[b].passedOn
    ensures forall h :: h in w.boxes[b].holds ==> h !in w.owners[o].adopted
  {
    hide Sum;
    assert OwnerKept(w, o);
    forall h | h in w.boxes[b].holds ensures h !in w.owners[o].adopted {
      if h in w.owners[o].adopted {
        assert HoldAtOwner(w, o, w.owners[o], h);
        NotElsewhere(w, b, h);
      }
    }
  }

  lemma AdoptedPrimaries(o: Owner, refs: seq<Ref>, holds: seq<Hold>)
    requires Adopt(o, refs, holds).Some?
    ensures Open(o) && forall h :: h in Adopt(o, refs, holds).value.primary && h !in holds ==> h in o.primary
  {
    PrepareSplits(o, refs, holds, |holds|);
    assert holds[..|holds|] == holds;
    var p := Prepare(o, refs, holds, |holds|).value;
    forall h | h in p.additions ensures h in Elements(holds) { assert h in Elements(p.additions); }
  }

  /** Everything the world needs to know about a successful adoption. */
  ghost predicate Adopted(before: Owner, after: Owner, holds: seq<Hold>) {
    && OwnerOk(after) && after.freed == before.freed && Open(before)
    && after.adopted == before.adopted + Elements(holds)
    && after.inFlight - before.inFlight <= Elements(holds)
    && Elements(after.primary) !! after.inFlight
    && (forall h :: h in after.primary && h !in holds ==> h in before.primary)
    && (forall h :: h in holds ==> h !in before.adopted) && before.freed <= before.adopted
  }

  lemma AdoptionFacts(w: World, o: OwnerId, b: BoxId)
    requires Linear(w) && CanAdoptInto(w, o, b) && Adoptable1(w, o, b)
    ensures Adopted(w.owners[o], AdoptInto(w, o, b).owners[o], w.boxes[b].holds)
  {
    hide Linear, OwnerOk, Adopt, Open;
    var holds := w.boxes[b].holds;
    OwnerFact(w, o);
    PendingIsFresh(w, o, b);
    AdoptKeeps(w.owners[o], Refs(holds), holds);
    AdoptedPrimaries(w.owners[o], Refs(holds), holds);
  }

  lemma PendingHolds(w: World, b: BoxId)
    requires Linear(w) && b in w.boxes && Pending(w.boxes[b])
    ensures forall h :: h in w.boxes[b].holds ==> h in w.homes && Times(w.starts, h) == 0 && Times(w.wins, h) == 0
  {
    hide Sum;
    assert BoxOk(w, b);
    forall h | h in w.boxes[b].holds ensures h in w.homes && Times(w.starts, h) == 0 && Times(w.wins, h) == 0 {
      var i :| 0 <= i < |w.boxes[b].holds| && w.boxes[b].holds[i] == h;
      assert HoldInBox(w, b, w.boxes[b], i);
    }
  }

  lemma AdoptedHold(w: World, w': World, o: OwnerId, before: Owner, after: Owner, holds: seq<Hold>, h: Hold)
    requires Adopted(before, after, holds) && h in after.adopted
    requires h !in holds ==> HoldAtOwner(w, o, before, h)
    requires h in holds ==> h in w.homes && Times(w.starts, h) == 0 && Times(w.wins, h) == 0
    requires w'.homes == Rehome(w.homes, Elements(holds), AtOwner(o)) && w'.wins == w.wins
    requires w'.starts == Bump(w.starts, after.inFlight - before.inFlight)
    ensures HoldAtOwner(w', o, after, h)
  {
    hide OwnerOk;
    assert h in Elements(holds) <==> h in holds;
    assert h in after.primary <==> h in Elements(after.primary);
  }

  /** What adoption gives the new owner. */
  lemma AdoptedOwner(w: World, o: OwnerId, b: BoxId)
    requires Linear(w) && CanAdoptInto(w, o, b) && Adoptable1(w, o, b)
    ensures OwnerKept(AdoptInto(w, o, b), o)
  {
    hide Linear, OwnerOk, Adopt, Open, HoldAtOwner, Rehome, Bump, Times;
    var w' := AdoptInto(w, o, b);
    var before, after := w.owners[o], w'.owners[o];
    OwnerFact(w, o);
    AdoptionFacts(w, o, b);
    PendingHolds(w, b);
    forall h | h in after.adopted ensures HoldAtOwner(w', o, after, h) {
      AdoptedHold(w, w', o, before, after, w.boxes[b].holds, h);
    }
  }

  lemma AdoptMoves(w: World, o: OwnerId, b: BoxId)
    requires Linear(w) && CanAdoptInto(w, o, b) && Adoptable1(w, o, b)
    ensures var w' := AdoptInto(w, o, b); Moves(w, w', Elements(w.boxes[b].holds), AtOwner(o))
    ensures var w' := AdoptInto(w, o, b); w.owners[o].adopted <= w'.owners[o].adopted
    ensures var w' := AdoptInto(w, o, b); forall h :: h in Elements(w.boxes[b].holds) ==> h in w'.homes && HomeOk(w', h)
  {
    hide Linear, OwnerOk, Adopt, Open;
    AdoptionFacts(w, o, b);
    HistoryFact(w);
  }

  lemma NothingAdopted(w: World, o: OwnerId, b: BoxId)
    requires CanAdoptInto(w, o, b) && !Adoptable1(w, o, b)
    ensures AdoptInto(w, o, b) == w
  {
    hide Adopt;
  }

  lemma AdoptedLinear(w: World, o: OwnerId, b: BoxId)
    requires Linear(w) && CanAdoptInto(w, o, b) && Adoptable1(w, o, b)
    ensures Linear(AdoptInto(w, o, b))
  {
    hide Moves, OwnerKept, HomesInv, Linear, Elements, Adopt, OwnerOk;
    var w' := AdoptInto(w, o, b);
    var hs := Elements(w.boxes[b].holds);
    AdoptMoves(w, o, b);
    AdoptedOwner(w, o, b);
    forall b2 | b2 in w'.boxes ensures BoxOk(w', b2) {
      if b2 != b { OthersKept(w, w', b, hs, AtOwner(o), b2); } else { PassedBoxOk(w, w', b); }
    }
    forall o2 | o2 in w'.owners ensures OwnerKept(w', o2) {
      if o2 != o { OtherOwnersKept(w, w', b, hs, AtOwner(o), o2); }
    }
    HomesMoved(w, w', b, hs, AtOwner(o));
    GlueLinear(w');
  }

  lemma AdoptLinear(w: World, o: OwnerId, b: BoxId)
    requires Linear(w) && CanAdoptInto(w, o, b)
    ensures Linear(AdoptInto(w, o, b))
  {
    hide *;
    if Adoptable1(w, o, b) { AdoptedLinear(w, o, b); } else { NothingAdopted(w, o, b); }
  }

  lemma PassedBoxOk(w: World, w': World, b: BoxId)
    requires Linear(w) && b in w.boxes && Pending(w.boxes[b]) && b in w'.boxes
    requires w'.boxes[b] == w.boxes[b].(passedOn := true)
    ensures BoxOk(w', b)
  {
    hide Sum;
    assert BoxOk(w, b);
  }
}

/** Linear custody: every hold has one custodian in every reachable state, and is released at most once. */
module CustodyInvariant {
  import opened Prelude
  import opened ContentRefs
  import opened OwnerModel
  import opened LedgerModel
  import opened CustodyModel

  // ---------------------------------------------------------------- the invariant

  /** Has the release of the hold at `i` been started by this box? Settled? */
  predicate Attempted(box: Box, i: nat) {
    match box.cleanup
    case Kept => false
    case Releasing(left, busy) => left <= i || (busy && i == left - 1)
    case Cleaned => true
  }

  predicate Settled(box: Box, i: nat) {
    match box.cleanup
    case Kept => false
    case Releasing(left, _) => left <= i
    case Cleaned => true
  }

  ghost predicate BoxWf(box: Box) {
    && Distinct(box.holds)
    && (box.passedOn ==> box.cleanup == Kept)
    && (box.cleanup.Releasing? ==> box.cleanup.left <= |box.holds| && (box.cleanup.busy ==> box.cleanup.left > 0))
  }

  ghost predicate HoldInBox(w: World, b: BoxId, box: Box, i: nat)
    requires i < |box.holds|
  {
    var h := box.holds[i];
    && h in w.homes && w.homes[h] == AtBox(b)
    && Times(w.starts, h) == (if Attempted(box, i) then 1 else 0)
    && Times(w.wins, h) <= (if Settled(box, i) then 1 else 0)
  }

  ghost predicate BoxOk(w: World, b: BoxId)
    requires b in w.boxes
  {
    var box := w.boxes[b];
    BoxWf(box) && (!box.passedOn ==> forall i :: 0 <= i < |box.holds| ==> HoldInBox(w, b, box, i))
  }

  ghost predicate HoldAtOwner(w: World, o: OwnerId, owner: Owner, h: Hold) {
    && h in w.homes && w.homes[h] == AtOwner(o)
    && Times(w.wins, h) == (if h in owner.freed then 1 else 0)
    && (Open(owner) && h in owner.primary ==> Times(w.starts, h) == 0)
  }

  ghost predicate OwnerKept(w: World, o: OwnerId)
    requires o in w.owners
  {
    OwnerOk(w.owners[o]) && forall h :: h in w.owners[o].adopted ==> HoldAtOwner(w, o, w.owners[o], h)
  }

  ghost predicate HomeOk(w: World, h: Hold)
    requires h in w.homes
  {
    match w.homes[h]
    case AtBox(b) => b in w.boxes && !w.boxes[b].passedOn && h in w.boxes[b].holds
    case AtOwner(o) => o in w.owners && h in w.owners[o].adopted
  }

  ghost predicate EntryOk(w: World, e: LedgerEntry) {
    && e.box in w.boxes && w.boxes[e.box].kind == Transfer && e.refs == Refs(w.boxes[e.box].holds)
    && (e.state == Routed ==> w.boxes[e.box].passedOn)
    && (e.state == LetGo ==> !Pending(w.boxes[e.box]))
  }

  /** An open ledger has routed and let go nothing yet; a drained one has routed everything. */
  ghost predicate LedgerOk(w: World, l: Ledger) {
    && Accounted(l)
    && (forall i :: 0 <= i < |l.entries| ==> EntryOk(w, l.entries[i]))
    && (l.state == LedgerOpen ==> forall i :: 0 <= i < |l.entries| ==> l.entries[i].state == Waiting)
    && (l.state == Drained ==> forall i :: 0 <= i < |l.entries| ==> l.entries[i].state == Routed)
    && (l.state == LedgerReleasing || l.state == LedgerReleased || l.state == LedgerReleaseFailed ==>
          forall i :: 0 <= i < |l.entries| ==> l.entries[i].state != Waiting)
  }

  ghost predicate BoxesInv(w: World) { forall b :: b in w.boxes ==> BoxOk(w, b) }

  ghost predicate OwnersInv(w: World) { forall o :: o in w.owners ==> OwnerKept(w, o) }

  ghost predicate HomesInv(w: World) {
    && (forall h :: h in w.homes ==> HomeOk(w, h))
    && (forall h1, h2 :: h1 in w.homes && h2 in w.homes && h1.id == h2.id ==> h1 == h2)
    && w.starts.Keys <= w.homes.Keys && w.wins.Keys <= w.homes.Keys
  }

  ghost predicate LedgersInv(w: World) { forall l :: l in w.ledgers ==> LedgerOk(w, w.ledgers[l]) }

  /** Everything but the ledgers, which only record what happened to boxes. */
  ghost predicate Linear(w: World) { BoxesInv(w) && OwnersInv(w) && HomesInv(w) }

  ghost predicate WInv(w: World) { Linear(w) && LedgersInv(w) }

  // ---------------------------------------------------------------- how the parts may move

  /** Only the histories of holds at one home moved. */
  ghost predicate OnlyAt(w: World, w': World, home: Home) {
    && w'.homes == w.homes
    && w'.starts.Keys <= w.homes.Keys && w'.wins.Keys <= w.homes.Keys
    && forall h :: h in w.homes && w.homes[h] != home ==>
       Times(w'.starts, h) == Times(w.starts, h) && Times(w'.wins, h) == Times(w.wins, h)
  }

  lemma BoxChange(w: World, w': World, b: BoxId)
    requires Linear(w) && b in w.boxes && b in w'.boxes && !w.boxes[b].passedOn
    requires w'.boxes == w.boxes[b := w'.boxes[b]] && w'.owners == w.owners
    requires w'.boxes[b].holds == w.boxes[b].holds && !w'.boxes[b].passedOn
    requires OnlyAt(w, w', AtBox(b)) && BoxOk(w', b)
    ensures Linear(w')
  {
    hide Sum;
    forall b2 | b2 in w'.boxes ensures BoxOk(w', b2) {
      if b2 != b {
        assert BoxOk(w, b2);
        forall i | 0 <= i < |w.boxes[b2].holds| && !w.boxes[b2].passedOn ensures HoldInBox(w', b2, w'.boxes[b2], i) {
          assert HoldInBox(w, b2, w.boxes[b2], i);
        }
      }
    }
    forall o | o in w'.owners ensures OwnerKept(w', o) {
      assert OwnerKept(w, o);
      forall h | h in w.owners[o].adopted
        ensures HoldAtOwner(w', o, w'.owners[o], h)
      {
        assert HoldAtOwner(w, o, w.owners[o], h);
      }
    }
    forall h | h in w'.homes ensures HomeOk(w', h) { assert HomeOk(w, h); }
  }

  lemma OwnerChange(w: World, w': World, o: OwnerId)
    requires Linear(w) && o in w.owners && o in w'.owners
    requires w'.owners == w.owners[o := w'.owners[o]] && w'.boxes == w.boxes
    requires w'.owners[o].adopted == w.owners[o].adopted
    requires OnlyAt(w, w', AtOwner(o)) && OwnerKept(w', o)
    ensures Linear(w')
  {
    forall b | b in w'.boxes ensures BoxOk(w', b) {
      assert BoxOk(w, b);
      forall i | 0 <= i < |w.boxes[b].holds| && !w.boxes[b].passedOn ensures HoldInBox(w', b, w'.boxes[b], i) {
        assert HoldInBox(w, b, w.boxes[b], i);
      }
    }
    forall o2 | o2 in w'.owners ensures OwnerKept(w', o2) {
      if o2 != o {
        assert OwnerKept(w, o2);
        forall h | h in w.owners[o2].adopted
          ensures HoldAtOwner(w', o2, w'.owners[o2], h)
        {
          assert HoldAtOwner(w, o2, w.owners[o2], h);
        }
      }
    }
    forall h | h in w'.homes ensures HomeOk(w', h) { assert HomeOk(w, h); }
  }

  /** Holds move from one custodian to another, without any attempt on those that are kept. */
  ghost predicate Moves(w: World, w': World, hs: set<Hold>, home: Home) {
    && w'.homes == Rehome(w.homes, hs, home)
    && w'.starts.Keys <= w'.homes.Keys && w'.wins.Keys <= w'.homes.Keys
    && (forall h :: h in w.homes && h !in hs ==>
         Times(w'.starts, h) == Times(w.starts, h) && Times(w'.wins, h) == Times(w.wins, h))
  }

  lemma OthersKept(w: World, w': World, b: BoxId, hs: set<Hold>, home: Home, b2: BoxId)
    requires Linear(w) && b in w.boxes && !w.boxes[b].passedOn && hs == Elements(w.boxes[b].holds)
    requires Moves(w, w', hs, home) && b2 in w.boxes && b2 in w'.boxes && b2 != b && w'.boxes[b2] == w.boxes[b2]
    ensures BoxOk(w', b2)
  {
    hide Sum;
    assert BoxOk(w, b) && BoxOk(w, b2);
    forall i | 0 <= i < |w.boxes[b2].holds| && !w.boxes[b2].passedOn ensures HoldInBox(w', b2, w'.boxes[b2], i) {
      assert HoldInBox(w, b2, w.boxes[b2], i);
      NotElsewhere(w, b, w.boxes[b2].holds[i]);
    }
  }

  lemma NotElsewhere(w: World, b: BoxId, h: Hold)
    requires Linear(w) && b in w.boxes && !w.boxes[b].passedOn && h in w.homes && w.homes[h] != AtBox(b)
    ensures h !in Elements(w.boxes[b].holds)
  {
    hide Sum;
    assert BoxOk(w, b);
    forall i | 0 <= i < |w.boxes[b].holds| ensures w.boxes[b].holds[i] != h { assert HoldInBox(w, b, w.boxes[b], i); }
  }

  lemma OtherOwnersKept(w: World, w': World, b: BoxId, hs: set<Hold>, home: Home, o: OwnerId)
    requires Linear(w) && b in w.boxes && !w.boxes[b].passedOn && hs == Elements(w.boxes[b].holds)
    requires Moves(w, w', hs, home) && o in w.owners && o in w'.owners && w'.owners[o] == w.owners[o]
    ensures OwnerKept(w', o)
  {
    hide Sum;
    assert OwnerKept(w, o);
    forall h | h in w.owners[o].adopted ensures HoldAtOwner(w', o, w'.owners[o], h) {
      assert HoldAtOwner(w, o, w.owners[o], h);
      NotElsewhere(w, b, h);
    }
  }

  lemma HomesMoved(w: World, w': World, b: BoxId, hs: set<Hold>, home: Home)
    requires Linear(w) && b in w.boxes && !w.boxes[b].passedOn && hs == Elements(w.boxes[b].holds)
    requires Moves(w, w', hs, home)
    requires forall h :: h in hs ==> h in w'.homes && HomeOk(w', h)
    requires forall b2 :: b2 in w.boxes && b2 != b ==> b2 in w'.boxes && w'.boxes[b2] == w.boxes[b2]
    requires forall o :: o in w.owners ==> o in w'.owners && w.owners[o].adopted <= w'.owners[o].adopted
    ensures HomesInv(w')
  {
    assert BoxOk(w, b);
    forall h | h in hs ensures h in w.homes {
      var i :| 0 <= i < |w.boxes[b].holds| && w.boxes[b].holds[i] == h;
      assert HoldInBox(w, b, w.boxes[b], i);
    }
    assert w'.homes.Keys == w.homes.Keys;
    forall h | h in w'.homes ensures HomeOk(w', h) {
      if h !in hs { assert HomeOk(w, h); }
    }
  }
}

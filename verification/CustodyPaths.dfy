/** The ways a frame's holds can take: through lease and transfer to an owner, or into a ledger, which comes to its
    end whatever it routes. */
module CustodyPaths {
  import opened Prelude
  import opened ContentRefs
  import opened OwnerModel
  import opened LedgerModel
  import opened LedgerAdmission
  import opened CustodyModel
  import opened CustodyInvariant
  import opened CustodySafety
  import opened CustodyRuns
  import opened CustodyProgress

  // ---------------------------------------------------------------- from a frame to a transfer

  lemma {:induction false} FreshBox(ids: set<BoxId>) returns (b: BoxId)
    ensures forall i :: i in ids ==> i < b
    decreases |ids|
  {
    b := 0;
    if ids != {} {
      var i :| i in ids;
      var n := FreshBox(ids - {i});
      b := Max(n, i + 1);
      assert forall k :: k in ids ==> k == i || k in ids - {i};
    }
  }

  /** What a frame has collected is in a transfer, and nothing else has moved. */
  ghost predicate InTransfer(w: World, w': World, b: BoxId, t: BoxId) {
    && b in w.boxes && t !in w.boxes && t in w'.boxes && w'.boxes[t] == Box(Transfer, w.boxes[b].holds, Kept, false)
    && w'.owners == w.owners && w'.ledgers == w.ledgers && w'.starts == w.starts && w'.wins == w.wins
    && (forall x :: x in w.boxes && x != b ==> x in w'.boxes && w'.boxes[x] == w.boxes[x])
    && b in w'.boxes && w'.boxes[b].passedOn
  }

  lemma PassesOn(w: World, b: BoxId, next: BoxId)
    requires b in w.boxes && w.boxes[b].kind != Transfer && Pending(w.boxes[b]) && next !in w.boxes
    ensures Can(w, APassOn(b, next))
    ensures var w' := Do(w, APassOn(b, next));
      && w'.boxes == w.boxes[b := w.boxes[b].(passedOn := true)][
           next := Box(if w.boxes[b].kind == Frame then Lease else Transfer, w.boxes[b].holds, Kept, false)]
      && w'.owners == w.owners && w'.ledgers == w.ledgers && w'.starts == w.starts && w'.wins == w.wins
  {
    hide Rehome;
  }

  /** A finished frame can be handed on until its holds are in a transfer. */
  lemma FrameReachesTransfer(w: World, b: BoxId) returns (actions: seq<Action>, w': World, t: BoxId)
    requires WInv(w) && b in w.boxes && w.boxes[b].kind == Frame && Pending(w.boxes[b])
    ensures Plays(w, actions, w') && WInv(w') && InTransfer(w, w', b, t)
  {
    hide WInv, Can, Do;
    var lease := FreshBox(w.boxes.Keys);
    t := FreshBox(w.boxes.Keys + {lease});
    var first, second := APassOn(b, lease), APassOn(lease, t);
    PassesOn(w, b, lease);
    StepKept(w, first);
    var w1 := Do(w, first);
    PassesOn(w1, lease, t);
    StepKept(w1, second);
    w' := Do(w1, second);
    actions := [first] + ([second] + []);
    assert Plays(w', [], w');
    OneMoreAction(w1, second, [], w');
    OneMoreAction(w, first, [second] + [], w');
  }

  // ---------------------------------------------------------------- to an owner

  /** An active owner to whose content the holds of a finished frame are new and consistent can get all of them. */
  lemma FrameReachesOwner(w: World, b: BoxId, o: OwnerId) returns (actions: seq<Action>, w': World)
    requires WInv(w) && b in w.boxes && w.boxes[b].kind == Frame && Pending(w.boxes[b])
    requires o in w.owners && w.owners[o].phase == Active
    requires Adoptable(w.owners[o], Refs(w.boxes[b].holds), w.boxes[b].holds)
    ensures Plays(w, actions, w') && WInv(w') && o in w'.owners
    ensures Gains(w.owners[o], w'.owners[o], w.boxes[b].holds)
    ensures forall x :: x in w.boxes[b].holds ==> x in w'.homes && w'.homes[x] == AtOwner(o)
  {
    hide WInv, Can, Do, Gains, Adoptable, Plays;
    var w1, t;
    actions, w1, t := FrameReachesTransfer(w, b);
    var a := AAdopt(o, t);
    Adopts(w1, o, t);
    StepKept(w1, a);
    w' := Do(w1, a);
    assert Plays(w', [], w') by { NothingPlayed(w'); }
    OneMoreAction(w1, a, [], w');
    PlaysFurther(w, actions, w1, [a] + [], w');
    actions := actions + ([a] + []);
  }

  lemma NothingPlayed(w: World)
    ensures Plays(w, [], w)
  {
  }

  lemma Adopts(w: World, o: OwnerId, t: BoxId)
    requires o in w.owners && w.owners[o].phase == Active && t in w.boxes
    requires w.boxes[t].kind == Transfer && Pending(w.boxes[t])
    requires Adoptable(w.owners[o], Refs(w.boxes[t].holds), w.boxes[t].holds)
    ensures Can(w, AAdopt(o, t))
    ensures var w' := Do(w, AAdopt(o, t));
      && o in w'.owners && Gains(w.owners[o], w'.owners[o], w.boxes[t].holds)
      && forall x :: x in w.boxes[t].holds ==> x in w'.homes && w'.homes[x] == AtOwner(o)
  {
    hide Adopt, Gains, Adoptable, Bump;
    AdoptAccepts(w.owners[o], Refs(w.boxes[t].holds), w.boxes[t].holds);
    AdoptGains(w.owners[o], Refs(w.boxes[t].holds), w.boxes[t].holds);
    assert forall x :: x in w.boxes[t].holds ==> x in Elements(w.boxes[t].holds);
  }

  lemma {:induction false} PlaysFurther(w: World, actions: seq<Action>, w1: World, more: seq<Action>, w2: World)
    requires Plays(w, actions, w1) && Plays(w1, more, w2)
    ensures Plays(w, actions + more, w2)
    decreases |actions|
  {
    hide Can, Do;
    if actions == [] {
      assert actions + more == more;
    } else {
      PlaysFurther(Do(w, actions[0]), actions[1..], w1, more, w2);
      OneMoreAction(w, actions[0], actions[1..] + more, w2);
      assert [actions[0]] + (actions[1..] + more) == actions + more;
    }
  }

  // ---------------------------------------------------------------- into a ledger

  /** The room the ledger needs, with a transfer it does not have yet. */
  ghost predicate HasRoom(l: Ledger, refs: seq<Ref>, bytes: nat) {
    forall box :: IsNew(l, box) ==> exists l' :: Admitted(l, l', box, refs, bytes)
  }

  /** An open ledger with room for what a finished frame has collected can admit it. */
  lemma FrameReachesLedger(w: World, b: BoxId, l: LedgerId, bytes: nat)
    returns (actions: seq<Action>, w': World, t: BoxId)
    requires WInv(w) && b in w.boxes && w.boxes[b].kind == Frame && Pending(w.boxes[b])
    requires l in w.ledgers && HasRoom(w.ledgers[l], Refs(w.boxes[b].holds), bytes)
    ensures Plays(w, actions, w') && WInv(w') && l in w'.ledgers && t in w'.boxes
    ensures Admitted(w.ledgers[l], w'.ledgers[l], t, Refs(w.boxes[b].holds), bytes)
    ensures w'.boxes[t] == Box(Transfer, w.boxes[b].holds, Kept, false)
  {
    hide WInv, Can, Do, Plays, HasRoom, Admitted, IsNew;
    var w1;
    actions, w1, t := FrameReachesTransfer(w, b);
    var a := AAdmit(l, t, bytes);
    NewBoxIsNew(w, l, t);
    Admits(w1, l, t, bytes);
    StepKept(w1, a);
    w' := Do(w1, a);
    NothingPlayed(w');
    OneMoreAction(w1, a, [], w');
    PlaysFurther(w, actions, w1, [a] + [], w');
    actions := actions + ([a] + []);
  }

  lemma NewBoxIsNew(w: World, l: LedgerId, t: BoxId)
    requires WInv(w) && l in w.ledgers && t !in w.boxes
    ensures IsNew(w.ledgers[l], t)
  {
    hide Linear;
    LedgerFacts(w, l);
  }

  lemma Admits(w: World, l: LedgerId, t: BoxId, bytes: nat)
    requires l in w.ledgers && t in w.boxes && w.boxes[t].kind == Transfer && IsNew(w.ledgers[l], t)
    requires HasRoom(w.ledgers[l], Refs(w.boxes[t].holds), bytes)
    ensures Can(w, AAdmit(l, t, bytes))
    ensures var w' := Do(w, AAdmit(l, t, bytes));
      && w'.boxes == w.boxes && l in w'.ledgers
      && Admitted(w.ledgers[l], w'.ledgers[l], t, Refs(w.boxes[t].holds), bytes)
  {
    hide Admitted, IsNew, AdmitTransfer;
    var ledger :| Admitted(w.ledgers[l], ledger, t, Refs(w.boxes[t].holds), bytes);
    AdmitIff(w.ledgers[l], t, Refs(w.boxes[t].holds), bytes, ledger);
  }

  // ---------------------------------------------------------------- the end of a ledger

  /** A cleanup under way can be brought to its end. */
  lemma BoxCanEnd(w: World, b: BoxId) returns (actions: seq<Action>, w': World)
    requires WInv(w) && b in w.boxes && w.boxes[b].cleanup.Releasing?
    ensures Plays(w, actions, w') && WInv(w') && OnlyBox(w, w', b) && w'.boxes[b].cleanup == Cleaned
  {
    hide WInv, Plays, Can, Do, Distinct;
    WBoxFact(w, b);
    if w.boxes[b].cleanup.busy {
      var a := ASettleRelease(b, true);
      SettleActs(w, b, true);
      StepKept(w, a);
      actions, w' := CleanupEnds(Do(w, a), b, {});
      OneMoreAction(w, a, actions, w');
      actions := [a] + actions;
    } else {
      actions, w' := CleanupEnds(w, b, {});
    }
  }

  /** No box of the first `n` entries that were let go of is still being released. */
  predicate SettledUpTo(w: World, entries: seq<LedgerEntry>, n: nat)
    requires n <= |entries|
  {
    forall i :: 0 <= i < n && entries[i].state == LetGo ==>
      entries[i].box in w.boxes && !w.boxes[entries[i].box].cleanup.Releasing?
  }

  lemma {:induction false} LetGoEnds(w: World, entries: seq<LedgerEntry>, n: nat)
    returns (actions: seq<Action>, w': World)
    requires WInv(w) && n <= |entries| && BoxesKnown(w, entries)
    ensures Plays(w, actions, w') && WInv(w') && w'.ledgers == w.ledgers && BoxesKnown(w', entries)
    ensures SettledUpTo(w', entries, n)
    decreases n
  {
    hide WInv, Plays;
    if n == 0 {
      actions, w' := [], w;
      NothingPlayed(w);
    } else {
      actions, w' := LetGoEnds(w, entries, n - 1);
      var b := entries[n - 1].box;
      if w'.boxes[b].cleanup.Releasing? {
        var more, w2 := BoxCanEnd(w', b);
        PlaysFurther(w, actions, w', more, w2);
        actions, w' := actions + more, w2;
      }
    }
  }

  /** An open ledger comes to its end: it is drained into an owner, and if that fails on the way, what remains is
      let go of and released. */
  lemma LedgerComesToItsEnd(w: World, l: LedgerId, o: OwnerId) returns (actions: seq<Action>, w': World)
    requires WInv(w) && l in w.ledgers && w.ledgers[l].state == LedgerOpen && o in w.owners
    ensures Plays(w, actions, w') && WInv(w') && l in w'.ledgers
    ensures w'.ledgers[l].state == Drained || w'.ledgers[l].state == LedgerReleased
  {
    hide WInv, Plays, Can, Do, CanReleaseRemaining, CanSettleLedger;
    LedgerKnown(w, l);
    var drain := ADrain(l, o);
    Drains(w, l, o);
    StepKept(w, drain);
    w' := Do(w, drain);
    NothingPlayed(w');
    OneMoreAction(w, drain, [], w');
    actions := [drain] + [];
    if w'.ledgers[l].state != Drained {
      var more, w2 := RemainderComesToItsEnd(w', l);
      PlaysFurther(w, actions, w', more, w2);
      actions, w' := actions + more, w2;
    }
  }

  lemma LedgerKnown(w: World, l: LedgerId)
    requires WInv(w) && l in w.ledgers
    ensures BoxesKnown(w, w.ledgers[l].entries)
  {
    hide Linear;
    LedgerFacts(w, l);
  }

  lemma Drains(w: World, l: LedgerId, o: OwnerId)
    requires l in w.ledgers && w.ledgers[l].state == LedgerOpen && o in w.owners
    requires BoxesKnown(w, w.ledgers[l].entries)
    ensures Can(w, ADrain(l, o)) && l in Do(w, ADrain(l, o)).ledgers
    ensures Do(w, ADrain(l, o)).ledgers[l].state in {Drained, DrainFailed}
  {
    hide DrainFrom, CountRouted, BoxesKnown;
  }

  lemma RemainderComesToItsEnd(w: World, l: LedgerId) returns (actions: seq<Action>, w': World)
    requires WInv(w) && l in w.ledgers && w.ledgers[l].state == DrainFailed
    ensures Plays(w, actions, w') && WInv(w') && l in w'.ledgers && w'.ledgers[l].state == LedgerReleased
  {
    hide WInv, Plays, Can, Do;
    LedgerKnown(w, l);
    var letGo, settle := AReleaseRemaining(l), ASettleLedger(l, true);
    LetsGo(w, l);
    StepKept(w, letGo);
    var w1 := Do(w, letGo);
    LedgerKnown(w1, l);
    var w2;
    actions, w2 := LetGoEnds(w1, w1.ledgers[l].entries, |w1.ledgers[l].entries|);
    Settles(w2, l);
    StepKept(w2, settle);
    w' := Do(w2, settle);
    NothingPlayed(w');
    OneMoreAction(w2, settle, [], w');
    PlaysFurther(w1, actions, w2, [settle] + [], w');
    OneMoreAction(w, letGo, actions + ([settle] + []), w');
    actions := [letGo] + (actions + ([settle] + []));
  }

  lemma LetsGo(w: World, l: LedgerId)
    requires l in w.ledgers && w.ledgers[l].state == DrainFailed && BoxesKnown(w, w.ledgers[l].entries)
    ensures Can(w, AReleaseRemaining(l)) && l in Do(w, AReleaseRemaining(l)).ledgers
    ensures Do(w, AReleaseRemaining(l)).ledgers[l].state == LedgerReleasing
  {
    hide LetGoFrom, BoxesKnown;
  }

  lemma Settles(w: World, l: LedgerId)
    requires l in w.ledgers && w.ledgers[l].state == LedgerReleasing && BoxesKnown(w, w.ledgers[l].entries)
    requires SettledUpTo(w, w.ledgers[l].entries, |w.ledgers[l].entries|)
    ensures Can(w, ASettleLedger(l, true)) && l in Do(w, ASettleLedger(l, true)).ledgers
    ensures Do(w, ASettleLedger(l, true)).ledgers[l].state == LedgerReleased
  {
    hide Bump, DrainFrom, LetGoFrom;
  }
}

/** Nothing handed out is stranded: from every reachable state the custodian of a hold can get to its release, and
    what a whole release leaves behind is decided by the outcomes of the single ones. */
module CustodyProgress {
  import opened Prelude
  import opened ContentRefs
  import opened OwnerModel
  import opened LedgerModel
  import opened CustodyModel
  import opened CustodyInvariant
  import opened CustodySafety
  import opened CustodyRuns

  // ---------------------------------------------------------------- one owner

  /** The steps lead the owner from one state to the other. */
  ghost predicate OwnerPlays(o: Owner, acts: seq<OwnerAction>, o': Owner)
    decreases |acts|
  {
    if acts == [] then o' == o
    else CanOwner(o, acts[0]) && OwnerPlays(DoOwner(o, acts[0]), acts[1..], o')
  }

  /** A release is over: exactly the holds in `fails` stayed owned, and the rest was freed. */
  ghost predicate Over(o: Owner, o': Owner, fails: set<Hold>) {
    && o'.owned == fails && o'.freed == o.freed + (o.owned - fails)
    && o'.adopted == o.adopted && o'.byKey == map[] && o'.inFlight == {} && o'.epoch == o.epoch
    && (o'.phase.Closed? || o'.phase.ReleaseFailed?)
  }

  lemma OverThrough(o: Owner, o1: Owner, o2: Owner, fails: set<Hold>)
    requires Over(o1, o2, fails) && o1.owned <= o.owned && fails <= o1.owned
    requires o1.freed == o.freed + (o.owned - o1.owned) && o1.adopted == o.adopted && o1.epoch == o.epoch
    ensures Over(o, o2, fails)
  {
  }

  lemma OneMore(o: Owner, a: OwnerAction, acts: seq<OwnerAction>, o': Owner)
    requires CanOwner(o, a) && OwnerPlays(DoOwner(o, a), acts, o')
    ensures OwnerPlays(o, [a] + acts, o')
  {
    hide CanOwner, DoOwner;
    assert ([a] + acts)[0] == a && ([a] + acts)[1..] == acts;
  }

  lemma {:induction false} PlaysOn(o: Owner, acts: seq<OwnerAction>, o1: Owner, more: seq<OwnerAction>, o2: Owner)
    requires OwnerPlays(o, acts, o1) && OwnerPlays(o1, more, o2)
    ensures OwnerPlays(o, acts + more, o2)
    decreases |acts|
  {
    hide CanOwner, DoOwner;
    if acts == [] {
      assert acts + more == more;
    } else {
      PlaysOn(DoOwner(o, acts[0]), acts[1..], o1, more, o2);
      OneMore(o, acts[0], acts[1..] + more, o2);
      assert [acts[0]] + (acts[1..] + more) == acts + more;
    }
  }

  /** The holds among the first `n` primaries. */
  function First(o: Owner, n: nat): set<Hold>
    requires n <= |o.primary|
  {
    Elements(o.primary[..n])
  }

  lemma FirstStep(o: Owner, n: nat)
    requires 0 < n <= |o.primary| && Distinct(o.primary)
    ensures First(o, n) == First(o, n - 1) + {o.primary[n - 1]} && o.primary[n - 1] !in First(o, n - 1)
  {
    assert o.primary[..n] == o.primary[..n - 1] + [o.primary[n - 1]];
  }

  lemma FirstAll(o: Owner)
    ensures First(o, |o.primary|) == Elements(o.primary)
  {
    assert o.primary[..|o.primary|] == o.primary;
  }

  /** The primaries are released one after the other, and the owner ends closed if nothing failed. */
  lemma {:induction false} PrimariesEnd(o: Owner, fails: set<Hold>) returns (acts: seq<OwnerAction>, o': Owner)
    requires OwnerOk(o) && o.phase.Closing? && o.phase.step.ReleasingPrimaries? && !o.phase.step.busy
    requires fails <= o.owned && o.owned - First(o, o.phase.step.left) <= fails
    ensures OwnerPlays(o, acts, o') && OwnerOk(o') && Over(o, o', fails)
    ensures o'.phase.Closed? <==> !o.phase.step.failed && fails == {}
    decreases o.phase.step.left
  {
    hide OwnerOk, Over, DoOwner, CanOwner, OwnerPlays, NextPrimary, SettlePrimary, FinishRelease, CanSettlePrimary;
    var step := o.phase.step;
    PrimariesFact(o);
    if step.left == 0 {
      assert CanOwner(o, OFinishRelease) by { FinishStep(o); }
      o' := FinishRelease(o);
      FinishStep(o);
      FinishReleaseKeeps(o);
      acts := [OFinishRelease] + [];
      PlaysNothing(o');
      OneMore(o, OFinishRelease, [], o');
      NoneLeft(o, o', fails);
    } else {
      var h := o.primary[step.left - 1];
      FirstStep(o, step.left);
      NextStep(o);
      var o1 := NextPrimary(o);
      NextPrimaryKeeps(o);
      if h in o.owned {
        var ok := h !in fails;
        SettleStep(o1, ok);
        SettlePrimaryKeeps(o1, ok);
        var o2 := SettlePrimary(o1, ok);
        var rest;
        rest, o' := PrimariesEnd(o2, fails);
        OneMore(o1, OSettlePrimary(ok), rest, o');
        acts := [ONextPrimary] + ([OSettlePrimary(ok)] + rest);
        OneMore(o, ONextPrimary, [OSettlePrimary(ok)] + rest, o');
        OverThrough(o, o2, o', fails);
      } else {
        var rest;
        rest, o' := PrimariesEnd(o1, fails);
        acts := [ONextPrimary] + rest;
        OneMore(o, ONextPrimary, rest, o');
        OverThrough(o, o1, o', fails);
      }
    }
  }

  lemma PlaysNothing(o: Owner)
    ensures OwnerPlays(o, [], o)
  {
  }

  lemma PrimariesFact(o: Owner)
    requires OwnerOk(o) && o.phase.Closing? && o.phase.step.ReleasingPrimaries?
    ensures o.phase.step.left <= |o.primary| && Distinct(o.primary) && o.byKey == map[] && o.inFlight == {}
    ensures !o.phase.step.failed ==> o.owned <= First(o, o.phase.step.left)
    ensures o.freed + o.owned == o.adopted && o.freed !! o.owned && First(o, 0) == {}
  {
    assert PrimariesOk(o);
    assert o.primary[..0] == [];
    if !o.phase.step.failed {
      forall h | h in o.owned ensures h in First(o, o.phase.step.left) {
        assert h in Elements(o.primary);
        var i :| 0 <= i < |o.primary| && o.primary[i] == h;
        assert o.primary[..o.phase.step.left][i] == h;
      }
    }
  }

  lemma FinishStep(o: Owner)
    requires o.phase.Closing? && o.phase.step.ReleasingPrimaries? && o.phase.step.left == 0 && !o.phase.step.busy
    ensures CanOwner(o, OFinishRelease) && DoOwner(o, OFinishRelease) == FinishRelease(o)
    ensures FinishRelease(o).phase == if o.phase.step.failed then ReleaseFailed else Closed
    ensures FinishRelease(o).owned == o.owned && FinishRelease(o).freed == o.freed
    ensures FinishRelease(o).adopted == o.adopted && FinishRelease(o).byKey == o.byKey
    ensures FinishRelease(o).inFlight == o.inFlight && FinishRelease(o).epoch == o.epoch
  {
  }

  lemma NoneLeft(o: Owner, o': Owner, fails: set<Hold>)
    requires o.owned == o'.owned && o'.freed == o.freed && o'.adopted == o.adopted && o'.epoch == o.epoch
    requires o'.byKey == map[] && o'.inFlight == {} && (o'.phase.Closed? || o'.phase.ReleaseFailed?)
    requires fails <= o.owned && 0 <= |o.primary| && o.owned - First(o, 0) <= fails
    ensures Over(o, o', fails)
  {
    assert o.primary[..0] == [];
    assert o.owned == fails;
    assert o.owned - fails == {};
  }

  lemma NextStep(o: Owner)
    requires o.phase.Closing? && o.phase.step.ReleasingPrimaries?
    requires !o.phase.step.busy && 0 < o.phase.step.left <= |o.primary|
    ensures CanNextPrimary(o) && CanOwner(o, ONextPrimary) && DoOwner(o, ONextPrimary) == NextPrimary(o)
    ensures var step := o.phase.step;
      NextPrimary(o) == o.(phase := Closing(
        if o.primary[step.left - 1] in o.owned then step.(busy := true) else step.(left := step.left - 1)))
  {
  }

  lemma SettleStep(o: Owner, ok: bool)
    requires o.phase.Closing? && o.phase.step.ReleasingPrimaries?
    requires o.phase.step.busy && 0 < o.phase.step.left <= |o.primary|
    ensures CanSettlePrimary(o) && CanOwner(o, OSettlePrimary(ok))
    ensures DoOwner(o, OSettlePrimary(ok)) == SettlePrimary(o, ok)
    ensures var step := o.phase.step; var h := o.primary[step.left - 1];
      SettlePrimary(o, ok) == o.(
        phase := Closing(ReleasingPrimaries(step.left - 1, false, step.failed || !ok)),
        owned := if ok then o.owned - {h} else o.owned, freed := if ok then o.freed + {h} else o.freed)
  {
  }

  /** The duplicates' releases under way settle, then the primaries follow. */
  lemma {:induction false} DuplicatesEnd(o: Owner, fails: set<Hold>) returns (acts: seq<OwnerAction>, o': Owner)
    requires OwnerOk(o) && o.phase.Closing? && o.phase.step.ReleasingDuplicates?
    requires fails <= o.owned && o.duplicates - o.inFlight <= fails
    ensures OwnerPlays(o, acts, o') && OwnerOk(o') && Over(o, o', fails)
    ensures o'.phase.Closed? <==> !o.phase.step.failed && fails == {}
    decreases |o.inFlight|
  {
    hide OwnerOk, Over, DoOwner, CanOwner, OwnerPlays, SettleDuplicate, CanSettleDuplicate, StartPrimaries,
      CanStartPrimaries, Open, First, Elements;
    if h :| h in o.inFlight {
      var ok := h !in fails;
      SettleDuplicateStep(o, h, ok);
      SettleDuplicateKeeps(o, h, ok);
      var o1 := SettleDuplicate(o, h, ok);
      InFlightFact(o);
      var rest;
      rest, o' := DuplicatesEnd(o1, fails);
      acts := [OSettleDuplicate(h, ok)] + rest;
      OneMore(o, OSettleDuplicate(h, ok), rest, o');
      OverThrough(o, o1, o', fails);
    } else {
      StartPrimariesStep(o);
      StartPrimariesKeeps(o);
      var o1 := StartPrimaries(o);
      InFlightFact(o);
      FirstAll(o1);
      var rest;
      rest, o' := PrimariesEnd(o1, fails);
      acts := [OStartPrimaries] + rest;
      OneMore(o, OStartPrimaries, rest, o');
      OverThrough(o, o1, o', fails);
    }
  }

  lemma InFlightFact(o: Owner)
    requires OwnerOk(o)
    ensures o.inFlight <= o.duplicates <= o.owned <= Elements(o.primary) + o.duplicates
    ensures o.adopted == o.owned + o.freed && o.owned !! o.freed && (!Open(o) ==> o.byKey == map[])
  {
  }

  lemma SettleDuplicateStep(o: Owner, h: Hold, ok: bool)
    requires o.phase.Closing? && o.phase.step.ReleasingDuplicates? && h in o.inFlight
    ensures CanSettleDuplicate(o, h) && CanOwner(o, OSettleDuplicate(h, ok))
    ensures DoOwner(o, OSettleDuplicate(h, ok)) == SettleDuplicate(o, h, ok)
    ensures SettleDuplicate(o, h, ok) == o.(
      inFlight := o.inFlight - {h}, phase := if ok then o.phase else Closing(ReleasingDuplicates(true)),
      duplicates := if ok then o.duplicates - {h} else o.duplicates,
      owned := if ok then o.owned - {h} else o.owned, freed := if ok then o.freed + {h} else o.freed)
  {
  }

  lemma StartPrimariesStep(o: Owner)
    requires o.phase.Closing? && o.phase.step.ReleasingDuplicates? && o.inFlight == {}
    ensures CanStartPrimaries(o) && CanOwner(o, OStartPrimaries) && DoOwner(o, OStartPrimaries) == StartPrimaries(o)
    ensures StartPrimaries(o) == o.(phase := Closing(ReleasingPrimaries(|o.primary|, false, o.phase.step.failed)))
  {
  }

  /** The cleanups still under way settle first; a duplicate whose cleanup failed is attempted once more. */
  lemma {:induction false} CleanupsEnd(o: Owner, fails: set<Hold>) returns (acts: seq<OwnerAction>, o': Owner)
    requires OwnerOk(o) && o.phase == Closing(AwaitingCleanups) && fails <= o.owned
    ensures OwnerPlays(o, acts, o') && OwnerOk(o') && Over(o, o', fails)
    ensures o'.phase.Closed? <==> fails == {}
    decreases |o.inFlight|
  {
    hide OwnerOk, Over, DoOwner, CanOwner, OwnerPlays, SettleCleanup, CanSettleCleanup, StartDuplicates, Open;
    InFlightFact(o);
    if h :| h in o.inFlight {
      var ok := h !in fails;
      SettleCleanupStep(o, h, ok);
      SettleCleanupKeeps(o, h, ok);
      var o1 := SettleCleanup(o, h, ok);
      var rest;
      rest, o' := CleanupsEnd(o1, fails);
      acts := [OSettleCleanup(h, ok)] + rest;
      OneMore(o, OSettleCleanup(h, ok), rest, o');
      OverThrough(o, o1, o', fails);
    } else {
      StartDuplicatesStep(o);
      StartDuplicatesKeeps(o);
      var o1 := StartDuplicates(o);
      var rest;
      rest, o' := DuplicatesEnd(o1, fails);
      acts := [OStartDuplicates] + rest;
      OneMore(o, OStartDuplicates, rest, o');
      OverThrough(o, o1, o', fails);
    }
  }

  lemma SettleCleanupStep(o: Owner, h: Hold, ok: bool)
    requires o.phase == Closing(AwaitingCleanups) && h in o.inFlight
    ensures CanSettleCleanup(o, h) && CanOwner(o, OSettleCleanup(h, ok))
    ensures DoOwner(o, OSettleCleanup(h, ok)) == SettleCleanup(o, h, ok)
    ensures SettleCleanup(o, h, ok) == o.(
      inFlight := o.inFlight - {h}, fatal := o.fatal || !ok,
      duplicates := if ok then o.duplicates - {h} else o.duplicates,
      owned := if ok then o.owned - {h} else o.owned, freed := if ok then o.freed + {h} else o.freed)
  {
  }

  lemma StartDuplicatesStep(o: Owner)
    requires o.phase == Closing(AwaitingCleanups) && o.inFlight == {}
    ensures CanStartDuplicates(o) && CanOwner(o, OStartDuplicates) && DoOwner(o, OStartDuplicates) == StartDuplicates(o)
    ensures StartDuplicates(o) == o.(phase := Closing(ReleasingDuplicates(false)), inFlight := o.duplicates)
  {
  }

  /** Whatever subset of its holds cannot be released, an owner that is not being released yet can be brought to the
      end of a release that frees exactly the others; it is closed exactly when there is no such hold. */
  lemma OwnerCanRelease(o: Owner, fails: set<Hold>) returns (acts: seq<OwnerAction>, o': Owner)
    requires OwnerOk(o) && CanBeginRelease(o) && fails <= o.owned
    ensures OwnerPlays(o, acts, o') && OwnerOk(o') && Over(o, o', fails)
    ensures o'.phase == if fails == {} then Closed else ReleaseFailed
  {
    hide OwnerOk, OwnerPlays;
    BeginReleaseKeeps(o);
    BeginStep(o);
    var o1 := BeginRelease(o);
    var rest;
    rest, o' := CleanupsEnd(o1, fails);
    acts := [OBeginRelease] + rest;
    OneMore(o, OBeginRelease, rest, o');
  }

  lemma BeginStep(o: Owner)
    requires CanBeginRelease(o)
    ensures CanOwner(o, OBeginRelease) && DoOwner(o, OBeginRelease) == BeginRelease(o)
    ensures BeginRelease(o) == o.(phase := Closing(AwaitingCleanups), byKey := map[])
  {
  }

  /** A release under way can be brought to its end. */
  lemma OwnerCanEnd(o: Owner) returns (acts: seq<OwnerAction>, o': Owner)
    requires OwnerOk(o) && o.phase.Closing?
    ensures OwnerPlays(o, acts, o') && OwnerOk(o') && o'.adopted == o.adopted
    ensures o'.phase.Closed? || o'.phase.ReleaseFailed?
  {
    hide OwnerOk, OwnerPlays, DoOwner, CanOwner, First;
    InFlightFact(o);
    match o.phase.step
    case AwaitingCleanups => acts, o' := CleanupsEnd(o, {});
    case ReleasingDuplicates(_) => acts, o' := DuplicatesEnd(o, o.duplicates - o.inFlight);
    case ReleasingPrimaries(left, busy, _) =>
      PrimariesFact(o);
      if busy {
        BusyFact(o);
        SettleStep(o, true);
        SettlePrimaryKeeps(o, true);
        var o1 := SettlePrimary(o, true);
        PrimariesFact(o1);
        acts, o' := PrimariesEnd(o1, o1.owned - First(o1, o1.phase.step.left));
        OneMore(o, OSettlePrimary(true), acts, o');
        acts := [OSettlePrimary(true)] + acts;
      } else {
        acts, o' := PrimariesEnd(o, o.owned - First(o, left));
      }
  }

  lemma BusyFact(o: Owner)
    requires OwnerOk(o) && o.phase.Closing? && o.phase.step.ReleasingPrimaries? && o.phase.step.busy
    ensures 0 < o.phase.step.left <= |o.primary| && o.primary[o.phase.step.left - 1] in o.owned
  {
    assert PrimariesOk(o);
  }

  /** Every owner, whatever it is doing and whatever failed before, can get to the end of its release. */
  lemma OwnerCanClose(o: Owner) returns (acts: seq<OwnerAction>, o': Owner)
    requires OwnerOk(o)
    ensures OwnerPlays(o, acts, o') && OwnerOk(o') && o'.phase.Closed?
    ensures o'.adopted == o.adopted && o'.freed == o.adopted
  {
    hide OwnerOk, OwnerPlays, DoOwner, CanOwner;
    acts, o' := [], o;
    PlaysNothing(o);
    if o.phase.Closing? { acts, o' := OwnerCanEnd(o); }
    if !o'.phase.Closed? {
      var more, o2 := OwnerCanRelease(o', {});
      PlaysOn(o, acts, o', more, o2);
      acts, o' := acts + more, o2;
    }
    ClosedFact(o');
  }

  lemma ClosedFact(o: Owner)
    requires OwnerOk(o) && o.phase.Closed?
    ensures o.freed == o.adopted
  {
  }

  // ---------------------------------------------------------------- the world

  /** The actions lead from one world to the other. */
  ghost predicate Plays(w: World, actions: seq<Action>, w': World)
    decreases |actions|
  {
    if actions == [] then w' == w
    else Can(w, actions[0]) && Plays(Do(w, actions[0]), actions[1..], w')
  }

  lemma OneMoreAction(w: World, a: Action, actions: seq<Action>, w': World)
    requires Can(w, a) && Plays(Do(w, a), actions, w')
    ensures Plays(w, [a] + actions, w')
  {
    hide Can, Do;
    assert ([a] + actions)[0] == a && ([a] + actions)[1..] == actions;
  }

  /** Only owner `o` has moved, and the releases of its holds. */
  ghost predicate OnlyOwner(w: World, w': World, o: OwnerId) {
    && o in w.owners && o in w'.owners && w'.owners == w.owners[o := w'.owners[o]]
    && w'.boxes == w.boxes && w'.homes == w.homes && w'.ledgers == w.ledgers
  }

  lemma {:induction false} OwnerPlaysInWorld(w: World, o: OwnerId, acts: seq<OwnerAction>, end: Owner)
    returns (actions: seq<Action>, w': World)
    requires WInv(w) && o in w.owners && OwnerPlays(w.owners[o], acts, end)
    ensures Plays(w, actions, w') && WInv(w') && OnlyOwner(w, w', o) && w'.owners[o] == end
    decreases |acts|
  {
    hide WInv, Can, Do, DoOwner, CanOwner;
    if acts == [] {
      actions, w' := [], w;
      assert w.owners == w.owners[o := w.owners[o]];
    } else {
      var a := AOwner(o, acts[0]);
      OwnerActs(w, o, acts[0]);
      StepKept(w, a);
      actions, w' := OwnerPlaysInWorld(Do(w, a), o, acts[1..], end);
      OneMoreAction(w, a, actions, w');
      actions := [a] + actions;
    }
  }

  lemma OwnerActs(w: World, o: OwnerId, act: OwnerAction)
    requires o in w.owners && CanOwner(w.owners[o], act)
    ensures Can(w, AOwner(o, act)) && OnlyOwner(w, Do(w, AOwner(o, act)), o)
    ensures Do(w, AOwner(o, act)).owners[o] == DoOwner(w.owners[o], act)
  {
    hide DoOwner, CanOwner, Attempts, Bump;
  }

  // ---------------------------------------------------------------- boxes

  /** Only the box has moved, and the releases of its holds. */
  ghost predicate OnlyBox(w: World, w': World, b: BoxId) {
    && b in w.boxes && b in w'.boxes && w'.boxes == w.boxes[b := w'.boxes[b]]
    && w'.owners == w.owners && w'.homes == w.homes && w'.ledgers == w.ledgers
    && w'.boxes[b] == w.boxes[b].(cleanup := w'.boxes[b].cleanup)
  }

  /** The outcomes of the first `n` holds: those in `fails` are attempted in vain, the others are released. */
  ghost predicate Outcome(w: World, w': World, holds: seq<Hold>, n: nat, fails: set<Hold>)
    requires n <= |holds|
  {
    && (forall h :: h in holds[..n] ==> Times(w'.wins, h) == Times(w.wins, h) + if h in fails then 0 else 1)
    && (forall h :: h !in holds[..n] ==> Times(w'.wins, h) == Times(w.wins, h))
  }

  lemma OutcomeStep(w: World, w1: World, w2: World, holds: seq<Hold>, n: nat, fails: set<Hold>)
    requires 0 < n <= |holds| && Distinct(holds) && Outcome(w1, w2, holds, n - 1, fails)
    requires w1.wins == if holds[n - 1] in fails then w.wins else Bump(w.wins, {holds[n - 1]})
    ensures Outcome(w, w2, holds, n, fails)
  {
    assert holds[..n] == holds[..n - 1] + [holds[n - 1]];
    assert holds[n - 1] !in holds[..n - 1];
  }

  /** A cleanup under way can be brought to its end, whatever the outcomes of the single releases. */
  lemma {:induction false} CleanupEnds(w: World, b: BoxId, fails: set<Hold>) returns (actions: seq<Action>, w': World)
    requires WInv(w) && b in w.boxes && w.boxes[b].cleanup.Releasing? && !w.boxes[b].cleanup.busy
    requires w.boxes[b].cleanup.left <= |w.boxes[b].holds| && Distinct(w.boxes[b].holds)
    ensures Plays(w, actions, w') && WInv(w') && OnlyBox(w, w', b) && w'.boxes[b].cleanup == Cleaned
    ensures Outcome(w, w', w.boxes[b].holds, w.boxes[b].cleanup.left, fails)
    decreases w.boxes[b].cleanup.left
  {
    hide WInv, Can, Do, Outcome;
    var box := w.boxes[b];
    var left := box.cleanup.left;
    if left == 0 {
      var a := AEndCleanup(b);
      EndActs(w, b);
      StepKept(w, a);
      w' := Do(w, a);
      actions := [a];
      assert Plays(w', [], w');
      OneMoreAction(w, a, [], w');
      assert Outcome(w, w', box.holds, 0, fails) by { NoOutcome(w, w', box.holds, fails); }
    } else {
      var ok := box.holds[left - 1] !in fails;
      var start, settle := AStartRelease(b), ASettleRelease(b, ok);
      StartActs(w, b);
      StepKept(w, start);
      var w1 := Do(w, start);
      SettleActs(w1, b, ok);
      StepKept(w1, settle);
      var w2 := Do(w1, settle);
      actions, w' := CleanupEnds(w2, b, fails);
      OneMoreAction(w1, settle, actions, w');
      OneMoreAction(w, start, [settle] + actions, w');
      actions := [start] + ([settle] + actions);
      OutcomeStep(w, w2, w', box.holds, left, fails);
    }
  }

  lemma NoOutcome(w: World, w': World, holds: seq<Hold>, fails: set<Hold>)
    requires w'.wins == w.wins
    ensures Outcome(w, w', holds, 0, fails)
  {
  }

  lemma StartActs(w: World, b: BoxId)
    requires b in w.boxes && CanNextRelease(w.boxes[b])
    ensures Can(w, AStartRelease(b))
    ensures var w' := Do(w, AStartRelease(b));
      OnlyBox(w, w', b) && w'.wins == w.wins && w'.boxes[b].cleanup == Releasing(w.boxes[b].cleanup.left, true)
  {
    hide Bump;
  }

  lemma SettleActs(w: World, b: BoxId, ok: bool)
    requires b in w.boxes && CanSettleRelease(w.boxes[b])
    ensures Can(w, ASettleRelease(b, ok))
    ensures var w' := Do(w, ASettleRelease(b, ok)); var left := w.boxes[b].cleanup.left;
      && OnlyBox(w, w', b) && w'.boxes[b].cleanup == Releasing(left - 1, false)
      && w'.wins == if ok then Bump(w.wins, {w.boxes[b].holds[left - 1]}) else w.wins
  {
    hide Bump;
  }

  lemma EndActs(w: World, b: BoxId)
    requires b in w.boxes && w.boxes[b].cleanup == Releasing(0, false)
    ensures Can(w, AEndCleanup(b))
    ensures var w' := Do(w, AEndCleanup(b)); OnlyBox(w, w', b) && w'.wins == w.wins && w'.boxes[b].cleanup == Cleaned
  {
    hide Bump;
  }

  lemma CleanseActs(w: World, b: BoxId)
    requires b in w.boxes && Pending(w.boxes[b])
    ensures Can(w, ACleanse(b))
    ensures var w' := Do(w, ACleanse(b));
      OnlyBox(w, w', b) && w'.wins == w.wins && w'.boxes[b].cleanup == Releasing(|w.boxes[b].holds|, false)
  {
    hide Bump;
  }

  /** Whatever subset of its holds cannot be released, a pending frame, lease or transfer can be cleaned up: all its
      holds are attempted, exactly the others are released, and nobody else is concerned. */
  lemma BoxCanBeCleaned(w: World, b: BoxId, fails: set<Hold>) returns (actions: seq<Action>, w': World)
    requires WInv(w) && b in w.boxes && Pending(w.boxes[b])
    ensures Plays(w, actions, w') && WInv(w') && OnlyBox(w, w', b) && w'.boxes[b].cleanup == Cleaned
    ensures forall h :: Times(w'.wins, h) == Times(w.wins, h) + if h in w.boxes[b].holds && h !in fails then 1 else 0
  {
    hide WInv, Can, Do, Plays;
    var a := ACleanse(b);
    CleanseActs(w, b);
    StepKept(w, a);
    var w1 := Do(w, a);
    WBoxFact(w, b);
    actions, w' := CleanupEnds(w1, b, fails);
    OneMoreAction(w, a, actions, w');
    actions := [a] + actions;
    assert w.boxes[b].holds[..|w.boxes[b].holds|] == w.boxes[b].holds;
  }

  lemma WBoxFact(w: World, b: BoxId)
    requires WInv(w) && b in w.boxes
    ensures BoxOk(w, b) && Distinct(w.boxes[b].holds)
  {
    hide LedgersInv, OwnersInv, HomesInv;
  }

  // ---------------------------------------------------------------- every hold

  /** The release of a hold that nobody has attempted yet is still to come, and it can succeed; an owner can even
      repeat it until it does. */
  lemma HoldCanBeReleased(w: World, h: Hold) returns (actions: seq<Action>, w': World)
    requires WInv(w) && h in w.homes && (Times(w.starts, h) == 0 || w.homes[h].AtOwner?)
    ensures Plays(w, actions, w') && WInv(w') && Times(w'.wins, h) == 1
  {
    hide WInv, Linear, Plays, OwnerPlays, OwnerOk;
    WFacts(w);
    HomeFact(w, h);
    match w.homes[h]
    case AtOwner(o) =>
      OwnerFact(w, o);
      var acts, end := OwnerCanClose(w.owners[o]);
      actions, w' := OwnerPlaysInWorld(w, o, acts, end);
      WFacts(w');
      OwnerFact(w', o);
      assert HoldAtOwner(w', o, end, h);
    case AtBox(b) =>
      var i := IndexIn(w, b, h);
      if Pending(w.boxes[b]) {
        actions, w' := BoxCanBeCleaned(w, b, {});
      } else {
        actions, w' := RestIsCleaned(w, b, i);
      }
  }

  lemma WFacts(w: World)
    requires WInv(w)
    ensures Linear(w)
  {
    hide Linear, LedgersInv;
  }

  lemma IndexIn(w: World, b: BoxId, h: Hold) returns (i: nat)
    requires Linear(w) && b in w.boxes && !w.boxes[b].passedOn && h in w.boxes[b].holds
    ensures i < |w.boxes[b].holds| && w.boxes[b].holds[i] == h && HoldInBox(w, b, w.boxes[b], i)
    ensures BoxWf(w.boxes[b])
  {
    hide Linear, HoldInBox;
    i :| 0 <= i < |w.boxes[b].holds| && w.boxes[b].holds[i] == h;
    BoxFact(w, b);
    InBoxFact(w, b, i);
  }

  /** A cleanup that has not come to the hold at `i` yet will. */
  lemma RestIsCleaned(w: World, b: BoxId, i: nat) returns (actions: seq<Action>, w': World)
    requires WInv(w) && b in w.boxes && BoxWf(w.boxes[b]) && w.boxes[b].cleanup.Releasing?
    requires i < |w.boxes[b].holds| && HoldInBox(w, b, w.boxes[b], i) && Times(w.starts, w.boxes[b].holds[i]) == 0
    ensures Plays(w, actions, w') && WInv(w') && Times(w'.wins, w.boxes[b].holds[i]) == 1
  {
    hide WInv, Plays, Can, Do;
    var box := w.boxes[b];
    var h := box.holds[i];
    assert i < box.cleanup.left && Times(w.wins, h) == 0;
    if box.cleanup.busy {
      var a := ASettleRelease(b, true);
      SettleActs(w, b, true);
      StepKept(w, a);
      var w1 := Do(w, a);
      assert Times(w1.wins, h) == 0;
      actions, w' := CleanupEnds(w1, b, {});
      OneMoreAction(w, a, actions, w');
      actions := [a] + actions;
      assert h == box.holds[..box.cleanup.left - 1][i];
    } else {
      actions, w' := CleanupEnds(w, b, {});
      assert h == box.holds[..box.cleanup.left][i];
    }
  }

  /** Nothing is stranded: in every reachable state of every run, each hold the store handed out is past its only
      attempt or can still be released; and every hold an owner has adopted can be released, however often that
      failed before. */
  lemma NoHoldIsStranded(worlds: seq<World>, actions: seq<Action>, i: nat, h: Hold)
    requires IsRun(worlds, actions) && i < |worlds| && h in worlds[i].homes
    requires Times(worlds[i].starts, h) == 0 || worlds[i].homes[h].AtOwner?
    ensures exists more, end :: Plays(worlds[i], more, end) && Times(end.wins, h) == 1
  {
    hide WInv, Plays, IsRun, Times;
    RunInv(worlds, actions, i);
    var more, end := HoldCanBeReleased(worlds[i], h);
  }

  // ---------------------------------------------------------------- attempts

  /** The owner has started to release the hold, or has released it. */
  predicate Begun(o: Owner, h: Hold) {
    || h in o.inFlight || h in o.freed
    || (o.phase.Closing? && o.phase.step.ReleasingPrimaries? && o.phase.step.busy
        && 0 < o.phase.step.left <= |o.primary| && o.primary[o.phase.step.left - 1] == h)
  }

  ghost predicate BegunIsStarted(w: World) {
    forall o, h :: o in w.owners && Begun(w.owners[o], h) ==> Times(w.starts, h) > 0
  }

  lemma BegunByAttempt(o: Owner, a: OwnerAction, h: Hold)
    requires CanOwner(o, a) && Begun(DoOwner(o, a), h)
    ensures Begun(o, h) || h in Attempts(o, a)
  {
    hide Elements;
    match a
    case OSeal =>
    case OSettleCleanup(_, _) =>
    case OBeginRelease =>
    case OStartDuplicates =>
    case OSettleDuplicate(_, _) =>
    case OStartPrimaries =>
    case ONextPrimary =>
    case OSettlePrimary(_) =>
    case OFinishRelease =>
  }

  lemma Bumped(m: map<Hold, nat>, hs: set<Hold>, h: Hold)
    ensures Times(Bump(m, hs), h) == Times(m, h) + if h in hs then 1 else 0
  {
  }

  lemma OwnerStepBegins(w: World, o: OwnerId, a: OwnerAction)
    requires BegunIsStarted(w) && CanOwnerStep(w, o, a)
    ensures BegunIsStarted(OwnerStep(w, o, a))
  {
    hide Begun, DoOwner, CanOwner, Attempts, Bump, Times;
    var w' := OwnerStep(w, o, a);
    forall x, h | x in w'.owners && Begun(w'.owners[x], h) ensures Times(w'.starts, h) > 0 {
      Bumped(w.starts, Attempts(w.owners[o], a), h);
      if x == o { BegunByAttempt(w.owners[o], a, h); }
    }
  }

  lemma AdoptBegins(w: World, o: OwnerId, b: BoxId)
    requires BegunIsStarted(w)
    ensures BegunIsStarted(AdoptInto(w, o, b))
  {
    hide Prepare, Bump, Times, Rehome, Elements, ByKey;
    var w' := AdoptInto(w, o, b);
    if CanAdoptInto(w, o, b) && TryAdopt(w.owners[o], w.boxes[b]).Some? {
      var tried := w'.owners[o].inFlight - w.owners[o].inFlight;
      forall x, h | x in w'.owners && Begun(w'.owners[x], h) ensures Times(w'.starts, h) > 0 {
        Bumped(w.starts, tried, h);
        assert x == o && !Begun(w.owners[o], h) ==> h in tried;
      }
    }
  }

  lemma {:induction false} DrainBegins(w: World, o: OwnerId, entries: seq<LedgerEntry>)
    requires BegunIsStarted(w)
    ensures BegunIsStarted(DrainFrom(w, o, entries).0)
    decreases |entries|
  {
    hide BegunIsStarted, AdoptInto, Adoptable1;
    if entries != [] {
      if entries[0].state != Waiting {
        DrainBegins(w, o, entries[1..]);
      } else if Adoptable1(w, o, entries[0].box) {
        AdoptBegins(w, o, entries[0].box);
        DrainBegins(AdoptInto(w, o, entries[0].box), o, entries[1..]);
      }
    }
  }

  lemma {:induction false} LetGoStarts(w: World, entries: seq<LedgerEntry>)
    ensures LetGoFrom(w, entries).0.starts == w.starts
    decreases |entries|
  {
    hide BeginCleanup;
    if entries != [] {
      LetGoStarts(if entries[0].state == Waiting then Cleanse(w, entries[0].box) else w, entries[1..]);
    }
  }

  lemma SameBegins(w: World, w': World)
    requires BegunIsStarted(w) && w'.owners == w.owners && forall h :: Times(w.starts, h) <= Times(w'.starts, h)
    ensures BegunIsStarted(w')
  {
    hide Begun, Times;
  }

  lemma StepBegins(w: World, a: Action)
    requires BegunIsStarted(w) && Can(w, a)
    ensures BegunIsStarted(Do(w, a))
  {
    hide BegunIsStarted, DrainFrom, LetGoFrom, OwnerStep, AdoptInto, CanOwner, Bump, BeginCleanup, AdmitTransfer,
      AdmitBytes, BoxesKnown, CountRouted;
    match a
    case ANewOwner(o, epoch) => NewOwnerBegins(w, o, epoch);
    case AOwner(o, act) => OwnerStepBegins(w, o, act);
    case AAdopt(o, b) => AdoptBegins(w, o, b);
    case ADrain(l, o) =>
      DrainBegins(w, o, w.ledgers[l].entries);
      SameBegins(DrainFrom(w, o, w.ledgers[l].entries).0, Do(w, a));
    case AReleaseRemaining(l) =>
      LetGoStarts(w, w.ledgers[l].entries);
      LetGoLeavesOwners(w, w.ledgers[l].entries);
      SameBegins(w, Do(w, a));
    case AStartRelease(b) =>
      forall h ensures Times(w.starts, h) <= Times(Do(w, a).starts, h) {
        Bumped(w.starts, {w.boxes[b].holds[w.boxes[b].cleanup.left - 1]}, h);
      }
      SameBegins(w, Do(w, a));
    case _ => SameBegins(w, Do(w, a));
  }

  lemma NewOwnerBegins(w: World, o: OwnerId, epoch: string)
    requires BegunIsStarted(w) && o !in w.owners
    ensures BegunIsStarted(PutOwner(w, o, NewOwner(epoch)))
  {
  }

  lemma {:induction false} RunBegins(worlds: seq<World>, actions: seq<Action>, i: nat)
    requires IsRun(worlds, actions) && i < |worlds|
    ensures BegunIsStarted(worlds[i])
  {
    hide Can, Do;
    if i > 0 {
      RunBegins(worlds, actions, i - 1);
      StepBegins(worlds[i - 1], actions[i - 1]);
    }
  }

  /** No release succeeds that was not started. */
  lemma SuccessTakesAnAttempt(worlds: seq<World>, actions: seq<Action>, i: nat, h: Hold)
    requires IsRun(worlds, actions) && i < |worlds|
    ensures Times(worlds[i].wins, h) <= Times(worlds[i].starts, h)
  {
    hide IsRun, Linear, BegunIsStarted;
    var w := worlds[i];
    RunLinear(worlds, actions, i);
    RunBegins(worlds, actions, i);
    HistoryFact(w);
    if h in w.homes {
      HomeFact(w, h);
      match w.homes[h]
      case AtBox(b) => var k := IndexIn(w, b, h);
      case AtOwner(o) =>
        OwnerFact(w, o);
        assert HoldAtOwner(w, o, w.owners[o], h);
        if h in w.owners[o].freed { FreedIsStarted(w, o, h); }
    }
  }

  lemma FreedIsStarted(w: World, o: OwnerId, h: Hold)
    requires BegunIsStarted(w) && o in w.owners && h in w.owners[o].freed
    ensures Times(w.starts, h) > 0
  {
    assert Begun(w.owners[o], h);
  }

  // ---------------------------------------------------------------- admitted transfers

  predicate ListedAt(entries: seq<LedgerEntry>, b: BoxId) { exists i :: 0 <= i < |entries| && entries[i].box == b }

  predicate Listed(w: World, l: LedgerId, b: BoxId) { l in w.ledgers && ListedAt(w.ledgers[l].entries, b) }

  predicate SameBoxes(entries: seq<LedgerEntry>, entries': seq<LedgerEntry>) {
    |entries| <= |entries'| && forall i :: 0 <= i < |entries| ==> entries'[i].box == entries[i].box
  }

  lemma StaysListed(entries: seq<LedgerEntry>, entries': seq<LedgerEntry>, b: BoxId)
    requires ListedAt(entries, b) && SameBoxes(entries, entries')
    ensures ListedAt(entries', b)
  {
    var i :| 0 <= i < |entries| && entries[i].box == b;
    assert entries'[i].box == b;
  }

  /** No step takes an entry out of a ledger. */
  lemma StepKeepsEntries(w: World, a: Action, l: LedgerId)
    requires WInv(w) && Can(w, a) && l in w.ledgers
    ensures l in Do(w, a).ledgers && SameBoxes(w.ledgers[l].entries, Do(w, a).ledgers[l].entries)
  {
    hide WInv, Linear, DrainFrom, DrainCount, LetGoFrom, OwnerStep, AdoptInto, CanOwner, Bump, StageRefs, Seen,
      AdmitBytes, DrainShape, Advances, EntriesOk;
    match a
    case AAdmitBytes(x, bytes) => SameAfterBytes(w.ledgers[x], bytes);
    case ADrain(x, o) =>
      var entries := w.ledgers[x].entries;
      DrainLedgers(w, o, entries);
      DrainSplits(w, o, entries);
      ShapeAt(w, o, entries, DrainFrom(w, o, entries).1, DrainCount(w, o, entries), DrainFrom(w, o, entries).2);
    case AReleaseRemaining(x) =>
      WFacts(w);
      LetGoLinear(w, w.ledgers[x].entries);
    case AAdopt(o, b) => AdoptAdvances(w, o, b);
    case AOwner(o, act) => OwnerStepLedgers(w, o, act);
    case _ =>
  }

  lemma SameAfterBytes(l: Ledger, bytes: nat)
    requires AdmitBytes(l, bytes).Some?
    ensures AdmitBytes(l, bytes).value.entries == l.entries
  {
  }

  lemma OwnerStepLedgers(w: World, o: OwnerId, a: OwnerAction)
    ensures OwnerStep(w, o, a).ledgers == w.ledgers
  {
    hide DoOwner, CanOwner, Attempts;
  }

  lemma DrainLedgers(w: World, o: OwnerId, entries: seq<LedgerEntry>)
    requires WInv(w) && o in w.owners && BoxesKnown(w, entries)
    ensures DrainFrom(w, o, entries).0.ledgers == w.ledgers
  {
    hide Linear, Advances, DrainFrom;
    WFacts(w);
    DrainLinear(w, o, entries);
  }

  lemma {:induction false} ListedStays(worlds: seq<World>, actions: seq<Action>, i: nat, j: nat, l: LedgerId, b: BoxId)
    requires IsRun(worlds, actions) && i <= j <= |actions| && Listed(worlds[i], l, b)
    ensures Listed(worlds[j], l, b)
    decreases j
  {
    hide WInv, Can, Do, ListedAt, SameBoxes;
    if i < j {
      ListedStays(worlds, actions, i, j - 1, l, b);
      RunInv(worlds, actions, j - 1);
      SealedStep(worlds, actions, j - 1);
      StepKeepsEntries(worlds[j - 1], actions[j - 1], l);
      StaysListed(worlds[j - 1].ledgers[l].entries, worlds[j].ledgers[l].entries, b);
    }
  }

  lemma AdmittedIsListed(w: World, l: LedgerId, b: BoxId, bytes: nat)
    requires CanAdmit(w, l, b) && AdmitTransfer(w.ledgers[l], b, Refs(w.boxes[b].holds), bytes).Some?
    ensures Listed(Do(w, AAdmit(l, b, bytes)), l, b)
  {
    hide StageRefs, Seen, AdmitBytes;
    var w' := Do(w, AAdmit(l, b, bytes));
    assert w'.ledgers[l].entries[|w.ledgers[l].entries|].box == b;
  }

  lemma AnsweredFor(w: World, l: LedgerId, b: BoxId)
    requires LedgersInv(w) && Listed(w, l, b)
    ensures b in w.boxes && (w.ledgers[l].state == Drained ==> w.boxes[b].passedOn)
    ensures w.ledgers[l].state in {LedgerReleasing, LedgerReleased, LedgerReleaseFailed} ==> !Pending(w.boxes[b])
  {
    hide Accounted;
    assert LedgerOk(w, w.ledgers[l]);
    var i :| 0 <= i < |w.ledgers[l].entries| && w.ledgers[l].entries[i].box == b;
    assert EntryOk(w, w.ledgers[l].entries[i]);
  }

  /** A transfer that a ledger has admitted is never forgotten: in every later state the ledger still lists it; when
      the ledger has drained, an owner has adopted it, and when what remained has been let go of, it was adopted
      or its release has begun. */
  lemma AdmittedIsAnsweredFor(worlds: seq<World>, actions: seq<Action>, i: nat, j: nat, l: LedgerId, b: BoxId,
      bytes: nat)
    requires IsRun(worlds, actions) && i < j <= |actions| && actions[i] == AAdmit(l, b, bytes)
    requires l in worlds[i].ledgers && b in worlds[i].boxes
    requires AdmitTransfer(worlds[i].ledgers[l], b, Refs(worlds[i].boxes[b].holds), bytes).Some?
    ensures Listed(worlds[j], l, b) && b in worlds[j].boxes
    ensures worlds[j].ledgers[l].state == Drained ==> worlds[j].boxes[b].passedOn
    ensures worlds[j].ledgers[l].state in {LedgerReleasing, LedgerReleased, LedgerReleaseFailed} ==>
      !Pending(worlds[j].boxes[b])
  {
    hide Linear, LedgersInv, Do, Pending, AdmitTransfer, Listed, IsRun;
    RunLength(worlds, actions);
    SealedStep(worlds, actions, i);
    AdmittedIsListed(worlds[i], l, b, bytes);
    ListedStays(worlds, actions, i + 1, j, l, b);
    RunInv(worlds, actions, j);
    AnsweredFor(worlds[j], l, b);
  }

  lemma RunLength(worlds: seq<World>, actions: seq<Action>)
    requires IsRun(worlds, actions)
    ensures |worlds| == |actions| + 1
  {
  }
}

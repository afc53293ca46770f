/** Whole runs of the custody chain. */
module CustodyRuns {
  import opened Prelude
  import opened ContentRefs
  import opened OwnerModel
  import opened LedgerModel
  import opened CustodyModel
  import opened CustodyInvariant
  import opened CustodySafety

  // ---------------------------------------------------------------- ledgers only watch boxes

  /** Boxes keep their kind, transfers keep their holds, and nothing becomes pending again. */
  ghost predicate Advances(w: World, w': World) {
    forall b :: b in w.boxes ==>
      && b in w'.boxes && w'.boxes[b].kind == w.boxes[b].kind
      && (w.boxes[b].kind == Transfer ==> w'.boxes[b].holds == w.boxes[b].holds)
      && (w.boxes[b].passedOn ==> w'.boxes[b].passedOn)
      && (!Pending(w.boxes[b]) ==> !Pending(w'.boxes[b]))
  }

  lemma AdvancesTransitive(w1: World, w2: World, w3: World)
    requires Advances(w1, w2) && Advances(w2, w3)
    ensures Advances(w1, w3)
  {
    hide Sum;
  }

  lemma EntriesKept(w: World, w': World, entries: seq<LedgerEntry>)
    requires Advances(w, w') && forall i :: 0 <= i < |entries| ==> EntryOk(w, entries[i])
    ensures forall i :: 0 <= i < |entries| ==> EntryOk(w', entries[i])
  {
    forall i | 0 <= i < |entries| ensures EntryOk(w', entries[i]) { assert EntryOk(w, entries[i]); }
  }

  lemma LedgerKept(w: World, w': World, l: Ledger)
    requires Advances(w, w') && LedgerOk(w, l)
    ensures LedgerOk(w', l)
  {
    hide Sum;
    EntriesKept(w, w', l.entries);
  }

  /** Steps that leave all ledgers alone. */
  lemma LedgersKept(w: World, w': World)
    requires LedgersInv(w) && Advances(w, w') && w'.ledgers == w.ledgers
    ensures LedgersInv(w')
  {
    hide Advances, LedgerOk;
    forall l | l in w'.ledgers ensures LedgerOk(w', w'.ledgers[l]) { LedgerKept(w, w', w.ledgers[l]); }
  }

  /** A step of one ledger that leaves all boxes alone. */
  lemma OneLedger(w: World, w': World, l: LedgerId)
    requires LedgersInv(w) && Advances(w, w') && l in w'.ledgers && w'.ledgers == w.ledgers[l := w'.ledgers[l]]
    requires LedgerOk(w', w'.ledgers[l])
    ensures LedgersInv(w')
  {
    hide Advances, LedgerOk;
    forall m | m in w'.ledgers ensures LedgerOk(w', w'.ledgers[m]) {
      if m != l { LedgerKept(w, w', w.ledgers[m]); }
    }
  }

  lemma LinearIgnoresLedgers(w: World, ledgers: map<LedgerId, Ledger>)
    requires Linear(w)
    ensures Linear(w.(ledgers := ledgers))
  {
    hide Sum;
    var w' := w.(ledgers := ledgers);
    forall b | b in w'.boxes ensures BoxOk(w', b) {
      assert BoxOk(w, b);
      forall i | 0 <= i < |w.boxes[b].holds| && !w.boxes[b].passedOn ensures HoldInBox(w', b, w'.boxes[b], i) {
        assert HoldInBox(w, b, w.boxes[b], i);
      }
    }
    forall o | o in w'.owners ensures OwnerKept(w', o) {
      assert OwnerKept(w, o);
      forall h | h in w.owners[o].adopted
        ensures HoldAtOwner(w', o, w'.owners[o], h)
      {
        assert HoldAtOwner(w, o, w.owners[o], h);
      }
    }
    forall h | h in w'.homes ensures HomeOk(w', h) { assert HomeOk(w, h); }
  }

  // ---------------------------------------------------------------- draining

  predicate EntriesOk(w: World, entries: seq<LedgerEntry>) {
    BoxesKnown(w, entries) && forall i :: 0 <= i < |entries| ==> w.boxes[entries[i].box].kind == Transfer
  }

  /** The entries of a drain are routed up to the first refusal, and untouched from there on. */
  ghost predicate DrainShape(w: World, o: OwnerId, entries: seq<LedgerEntry>, entries': seq<LedgerEntry>, n: nat,
      ok: bool) {
    && n <= |entries| == |entries'|
    && (forall i :: 0 <= i < n ==>
         entries'[i] == if entries[i].state == Waiting then entries[i].(state := Routed) else entries[i])
    && entries'[n..] == entries[n..]
    && (ok <==> n == |entries|)
  }

  lemma AdoptAdvances(w: World, o: OwnerId, b: BoxId)
    requires CanAdoptInto(w, o, b)
    ensures Advances(w, AdoptInto(w, o, b)) && AdoptInto(w, o, b).ledgers == w.ledgers && o in AdoptInto(w, o, b).owners
    ensures Adoptable1(w, o, b) ==> AdoptInto(w, o, b).boxes[b].passedOn
  {
  }

  lemma AdvancesKnown(w: World, w': World, entries: seq<LedgerEntry>)
    requires Advances(w, w') && BoxesKnown(w, entries)
    ensures BoxesKnown(w', entries)
  {
  }

  lemma {:induction false} DrainLinear(w: World, o: OwnerId, entries: seq<LedgerEntry>)
    requires Linear(w) && o in w.owners && BoxesKnown(w, entries)
    ensures var r := DrainFrom(w, o, entries); Linear(r.0) && Advances(w, r.0) && r.0.ledgers == w.ledgers
    decreases |entries|
  {
    hide Linear, Advances, Adoptable1, AdoptInto;
    if entries == [] || (entries[0].state == Waiting && !Adoptable1(w, o, entries[0].box)) {
      AdvancesReflexive(w);
    } else if entries[0].state != Waiting {
      DrainLinear(w, o, entries[1..]);
    } else {
      var w1 := AdoptInto(w, o, entries[0].box);
      AdoptLinear(w, o, entries[0].box);
      AdoptAdvances(w, o, entries[0].box);
      AdvancesKnown(w, w1, entries[1..]);
      DrainLinear(w1, o, entries[1..]);
      AdvancesTransitive(w, w1, DrainFrom(w1, o, entries[1..]).0);
    }
  }

  lemma AdvancesReflexive(w: World)
    ensures Advances(w, w)
  {
  }

  /** How many leading entries a drain gets past. */
  ghost function DrainCount(w: World, o: OwnerId, entries: seq<LedgerEntry>): nat
    requires o in w.owners && BoxesKnown(w, entries)
    decreases |entries|
  {
    if entries == [] then 0
    else
      var e := entries[0];
      assert e == entries[0];
      if e.state != Waiting then 1 + DrainCount(w, o, entries[1..])
      else if !Adoptable1(w, o, e.box) then 0
      else 1 + DrainCount(AdoptInto(w, o, e.box), o, entries[1..])
  }

  lemma {:induction false} DrainSplits(w: World, o: OwnerId, entries: seq<LedgerEntry>)
    requires o in w.owners && BoxesKnown(w, entries)
    ensures var r := DrainFrom(w, o, entries); DrainShape(w, o, entries, r.1, DrainCount(w, o, entries), r.2)
    decreases |entries|
  {
    hide Adoptable1, AdoptInto;
    if entries != [] {
      var e := entries[0];
      assert e == entries[0];
      if e.state != Waiting {
        DrainSplits(w, o, entries[1..]);
      } else if Adoptable1(w, o, e.box) {
        AdoptAdvances(w, o, e.box);
        DrainSplits(AdoptInto(w, o, e.box), o, entries[1..]);
      }
    }
  }

  lemma AdoptAdds(w: World, o: OwnerId, b: BoxId)
    requires Linear(w) && CanAdoptInto(w, o, b)
    ensures var w' := AdoptInto(w, o, b);
            && o in w'.owners && w.owners[o].adopted <= w'.owners[o].adopted
            && (Adoptable1(w, o, b) ==> Elements(w.boxes[b].holds) <= w'.owners[o].adopted)
  {
    if Adoptable1(w, o, b) {
      hide Linear, Adopt, OwnerOk;
      AdoptionFacts(w, o, b);
    }
  }

  /** Every entry a drain routes is adopted by the end of it. */
  lemma {:induction false} DrainRoutes(w: World, o: OwnerId, entries: seq<LedgerEntry>)
    requires Linear(w) && o in w.owners && EntriesOk(w, entries)
    ensures var r := DrainFrom(w, o, entries);
            && |r.1| == |entries| && EntriesOk(r.0, entries) && o in r.0.owners
            && w.owners[o].adopted <= r.0.owners[o].adopted
            && forall i :: 0 <= i < |entries| && entries[i].state == Waiting && r.1[i].state == Routed ==>
                 r.0.boxes[entries[i].box].passedOn &&
                   Elements(r.0.boxes[entries[i].box].holds) <= r.0.owners[o].adopted
    decreases |entries|
  {
    hide Linear, Adoptable1, AdoptInto, Elements, Pending;
    DrainLinear(w, o, entries);
    if entries != [] {
      var e := entries[0];
      assert e == entries[0];
      if e.state != Waiting {
        DrainRoutes(w, o, entries[1..]);
      } else if Adoptable1(w, o, e.box) {
        var w1 := AdoptInto(w, o, e.box);
        AdoptAdvances(w, o, e.box);
        AdoptLinear(w, o, e.box);
        AdoptAdds(w, o, e.box);
        DrainRoutes(w1, o, entries[1..]);
        DrainLinear(w1, o, entries[1..]);
      }
    }
  }

  lemma ReroutedAccounts(l: Ledger, entries: seq<LedgerEntry>, l': Ledger)
    requires Accounted(l) && |entries| == |l.entries|
    requires forall i :: 0 <= i < |entries| ==>
      entries[i].box == l.entries[i].box && entries[i].refs == l.entries[i].refs
    requires l' == l.(entries := entries, adopted := l'.adopted, state := l'.state)
    ensures Accounted(l')
  {
    hide Sum, Sizes;
    HeldSame(l.entries, entries);
    forall k | k in l.physical ensures InEntries(entries, l.physical[k]) {
      assert InEntries(l.entries, l.physical[k]);
      var i :| 0 <= i < |l.entries| && l.physical[k] in l.entries[i].refs;
      assert l.physical[k] in entries[i].refs;
    }
    forall i | 0 <= i < |entries| ensures EntryCovered(l.epoch, entries[i].refs, l.physical) {
      assert EntryCovered(l.epoch, l.entries[i].refs, l.physical);
    }
  }

  lemma {:induction false} HeldSame(a: seq<LedgerEntry>, b: seq<LedgerEntry>)
    requires |a| == |b| && forall i :: 0 <= i < |a| ==> a[i].refs == b[i].refs
    ensures HeldRefs(a) == HeldRefs(b)
  {
    if a != [] { HeldSame(a[..|a| - 1], b[..|b| - 1]); }
  }

  lemma DrainedLedger(w: World, l: LedgerId, o: OwnerId)
    requires WInv(w) && CanDrain(w, l, o)
    ensures LedgerOk(Drain(w, l, o), Drain(w, l, o).ledgers[l])
  {
    hide Linear, Accounted, Advances, Pending, DrainFrom, DrainCount, EntryOk, CountRouted, EntriesOk, BoxesKnown;
    var entries := w.ledgers[l].entries;
    var r := DrainFrom(w, o, entries);
    LedgerFacts(w, l);
    DrainLinear(w, o, entries);
    DrainSplits(w, o, entries);
    DrainRoutes(w, o, entries);
    EntriesKept(w, r.0, entries);
    ShapeAt(w, o, entries, r.1, DrainCount(w, o, entries), r.2);
    ReroutedAccounts(w.ledgers[l], r.1, Drain(w, l, o).ledgers[l]);
    forall i | 0 <= i < |r.1|
      ensures EntryOk(Drain(w, l, o), r.1[i])
    {
      RoutedEntryOk(r.0, Drain(w, l, o), entries[i], r.1[i]);
    }
  }

  lemma LedgerFacts(w: World, l: LedgerId)
    requires WInv(w) && l in w.ledgers
    ensures LedgerOk(w, w.ledgers[l]) && Linear(w) && EntriesOk(w, w.ledgers[l].entries)
  {
    hide Linear;
    assert LedgerOk(w, w.ledgers[l]);
    var entries := w.ledgers[l].entries;
    assert forall i :: 0 <= i < |entries| ==> EntryOk(w, entries[i]);
  }

  /** What the shape of a drain says about one entry. */
  lemma ShapeAt(w: World, o: OwnerId, entries: seq<LedgerEntry>, entries': seq<LedgerEntry>, n: nat, ok: bool)
    requires DrainShape(w, o, entries, entries', n, ok)
    ensures |entries'| == |entries| && (ok ==> n == |entries|)
    ensures forall i :: 0 <= i < n && entries[i].state == Waiting ==> entries'[i].state == Routed
    ensures forall i :: n <= i < |entries| ==> entries'[i] == entries[i]
    ensures forall i :: 0 <= i < |entries| ==>
      entries'[i] == entries[i] || (entries[i].state == Waiting && entries'[i] == entries[i].(state := Routed))
  {
    hide Sum;
    forall i | n <= i < |entries|
      ensures entries'[i] == entries[i]
    {
      assert entries'[n..][i - n] == entries[n..][i - n];
    }
  }

  lemma RoutedEntryOk(w: World, w': World, e: LedgerEntry, e': LedgerEntry)
    requires EntryOk(w, e) && w'.boxes == w.boxes
    requires e' == e || (e.state == Waiting && e' == e.(state := Routed) && w.boxes[e.box].passedOn)
    ensures EntryOk(w', e')
  {
    hide Sum;
  }

  lemma DrainKept(w: World, l: LedgerId, o: OwnerId)
    requires WInv(w) && CanDrain(w, l, o)
    ensures WInv(Drain(w, l, o))
  {
    hide Linear, LedgerOk, Advances;
    var r := DrainFrom(w, o, w.ledgers[l].entries);
    DrainLinear(w, o, w.ledgers[l].entries);
    DrainedLedger(w, l, o);
    LinearIgnoresLedgers(r.0, Drain(w, l, o).ledgers);
    SameBoxesAdvance(w, r.0, Drain(w, l, o));
    OneLedger(w, Drain(w, l, o), l);
  }

  lemma SameBoxesAdvance(w: World, w1: World, w2: World)
    requires Advances(w, w1) && w2.boxes == w1.boxes
    ensures Advances(w, w2)
  {
  }

  // ---------------------------------------------------------------- releasing what remains

  lemma CleanseAdvances(w: World, b: BoxId)
    requires b in w.boxes
    ensures Advances(w, Cleanse(w, b)) && Cleanse(w, b).ledgers == w.ledgers && !Pending(Cleanse(w, b).boxes[b])
  {
  }

  lemma {:induction false} LetGoLinear(w: World, entries: seq<LedgerEntry>)
    requires Linear(w) && BoxesKnown(w, entries)
    ensures var r := LetGoFrom(w, entries);
            && Linear(r.0) && Advances(w, r.0) && r.0.ledgers == w.ledgers && |r.1| == |entries|
            && (forall i :: 0 <= i < |entries| ==>
                 r.1[i] == if entries[i].state == Waiting then entries[i].(state := LetGo) else entries[i])
            && (forall i :: 0 <= i < |entries| && entries[i].state == Waiting ==>
                 entries[i].box in r.0.boxes && !Pending(r.0.boxes[entries[i].box]))
    decreases |entries|
  {
    if entries == [] {
      AdvancesReflexive(w);
    } else {
      hide Linear, Cleanse, Pending;
      var e := entries[0];
      assert e == entries[0];
      var w1 := if e.state == Waiting then Cleanse(w, e.box) else w;
      AdvancesReflexive(w);
      if e.state == Waiting {
        CleanseLinear(w, e.box);
        CleanseAdvances(w, e.box);
      }
      AdvancesKnown(w, w1, entries[1..]);
      LetGoLinear(w1, entries[1..]);
      AdvancesTransitive(w, w1, LetGoFrom(w1, entries[1..]).0);
    }
  }

  lemma LetGoLedger(w: World, l: LedgerId)
    requires WInv(w) && CanReleaseRemaining(w, l)
    ensures LedgerOk(ReleaseRemaining(w, l), ReleaseRemaining(w, l).ledgers[l])
  {
    hide Linear, Accounted, Advances, Pending;
    var entries := w.ledgers[l].entries;
    var w' := ReleaseRemaining(w, l);
    var r := LetGoFrom(w, entries);
    LetGoLinear(w, entries);
    EntriesKept(w, r.0, entries);
    ReroutedAccounts(w.ledgers[l], r.1, w'.ledgers[l]);
    forall i | 0 <= i < |r.1| ensures EntryOk(w', r.1[i]) { assert EntryOk(w, entries[i]) && EntryOk(r.0, entries[i]); }
  }

  lemma ReleaseRemainingKept(w: World, l: LedgerId)
    requires WInv(w) && CanReleaseRemaining(w, l)
    ensures WInv(ReleaseRemaining(w, l))
  {
    hide Linear, LedgerOk, Advances, Pending;
    var r := LetGoFrom(w, w.ledgers[l].entries);
    LetGoLinear(w, w.ledgers[l].entries);
    LetGoLedger(w, l);
    LinearIgnoresLedgers(r.0, ReleaseRemaining(w, l).ledgers);
    SameBoxesAdvance(w, r.0, ReleaseRemaining(w, l));
    OneLedger(w, ReleaseRemaining(w, l), l);
  }

  // ---------------------------------------------------------------- every step

  lemma InitInv(w: World)
    requires WInit(w)
    ensures WInv(w)
  {
    hide Sum;
  }

  lemma BoxStepAdvances(w: World, a: Action)
    requires Can(w, a)
    requires (a.ANewFrame? || a.AAcquire? || a.APassOn? || a.ACleanse? || a.AStartRelease? || a.ASettleRelease? ||
      a.AEndCleanup?)
    ensures Advances(w, Do(w, a)) && Do(w, a).ledgers == w.ledgers
  {
    hide Sum;
  }

  lemma BoxStepLinear(w: World, a: Action)
    requires Linear(w) && Can(w, a)
    requires a.ANewFrame? || a.AAcquire? || a.APassOn? || a.ACleanse? || a.AStartRelease? || a.ASettleRelease? ||
      a.AEndCleanup?
    ensures Linear(Do(w, a))
  {
    hide Linear;
    match a
    case ANewFrame(b) => NewFrameLinear(w, b);
    case AAcquire(b, h) => AcquireLinear(w, b, h);
    case APassOn(b, next) => PassOnLinear(w, b, next);
    case ACleanse(b) => CleanseLinear(w, b);
    case AStartRelease(b) => StartReleaseLinear(w, b);
    case ASettleRelease(b, ok) => SettleReleaseLinear(w, b, ok);
    case AEndCleanup(b) => EndCleanupLinear(w, b);
  }

  lemma OwnersAdvance(w: World, w': World)
    requires w'.boxes == w.boxes
    ensures Advances(w, w')
  {
  }

  lemma AdmitKept(w: World, l: LedgerId, b: BoxId, bytes: nat)
    requires WInv(w) && CanAdmit(w, l, b)
    ensures WInv(Admit(w, l, b, bytes))
  {
    hide Linear, Accounted, Advances, Pending;
    var w' := Admit(w, l, b, bytes);
    var refs := Refs(w.boxes[b].holds);
    if AdmitTransfer(w.ledgers[l], b, refs, bytes).Some? {
      AdmitKeepsAccounts(w.ledgers[l], b, refs, bytes);
      LinearIgnoresLedgers(w, w'.ledgers);
      OwnersAdvance(w, w');
      AdmittedLedger(w, l, b, bytes);
      OneLedger(w, w', l);
    }
  }

  lemma AdmittedLedger(w: World, l: LedgerId, b: BoxId, bytes: nat)
    requires LedgersInv(w) && CanAdmit(w, l, b)
    requires AdmitTransfer(w.ledgers[l], b, Refs(w.boxes[b].holds), bytes).Some?
    requires Accounted(AdmitTransfer(w.ledgers[l], b, Refs(w.boxes[b].holds), bytes).value)
    ensures LedgerOk(Admit(w, l, b, bytes), Admit(w, l, b, bytes).ledgers[l])
  {
    hide Accounted, Pending, Seen, StageRefs, AdmitTransfer;
    var _ := AdmitShape(w.ledgers[l], b, Refs(w.boxes[b].holds), bytes);
    var w' := Admit(w, l, b, bytes);
    var before, after := w.ledgers[l].entries, w'.ledgers[l].entries;
    forall i | 0 <= i < |after| ensures EntryOk(w', after[i]) {
      if i < |before| { assert EntryOk(w, before[i]); }
    }
  }

  lemma AdmitBytesKept(w: World, l: LedgerId, bytes: nat)
    requires WInv(w) && l in w.ledgers && AdmitBytes(w.ledgers[l], bytes).Some?
    ensures WInv(w.(ledgers := w.ledgers[l := AdmitBytes(w.ledgers[l], bytes).value]))
  {
    hide Linear, Advances, Pending, Accounted;
    var w' := w.(ledgers := w.ledgers[l := AdmitBytes(w.ledgers[l], bytes).value]);
    assert LedgerOk(w, w.ledgers[l]);
    AdmitBytesKeepsAccounts(w.ledgers[l], bytes);
    LinearIgnoresLedgers(w, w'.ledgers);
    OwnersAdvance(w, w');
    EntriesKept(w, w', w.ledgers[l].entries);
    OneLedger(w, w', l);
  }

  lemma NewLedgerKept(w: World, l: LedgerId, limits: LedgerLimits, epoch: string)
    requires WInv(w) && l !in w.ledgers
    ensures WInv(w.(ledgers := w.ledgers[l := NewLedger(limits, epoch)]))
  {
    hide Linear, Advances, Pending, LedgerOk, NewLedger;
    var w' := w.(ledgers := w.ledgers[l := NewLedger(limits, epoch)]);
    LinearIgnoresLedgers(w, w'.ledgers);
    OwnersAdvance(w, w');
    NewLedgerOk(w', limits, epoch);
    OneLedger(w, w', l);
  }

  lemma NewLedgerOk(w: World, limits: LedgerLimits, epoch: string)
    ensures LedgerOk(w, NewLedger(limits, epoch))
  {
    assert Sizes(map[]) == map[];
  }

  lemma SettleLedgerShape(w: World, l: LedgerId, ok: bool)
    requires CanSettleLedger(w, l)
    ensures var w' := SettleLedger(w, l, ok);
      && l in w.ledgers && l in w'.ledgers && w' == w.(ledgers := w'.ledgers)
      && w'.ledgers == w.ledgers[l := w'.ledgers[l]]
      && w.ledgers[l].state == LedgerReleasing
      && (w'.ledgers[l].state == LedgerReleased || w'.ledgers[l].state == LedgerReleaseFailed)
      && w'.ledgers[l] == w.ledgers[l].(state := w'.ledgers[l].state)
  {
    hide BoxesKnown;
  }

  lemma SettledLedgerOk(w: World, w': World, l: Ledger, l': Ledger)
    requires LedgerOk(w, l) && Advances(w, w') && l' == l.(state := l'.state)
    requires l.state == LedgerReleasing && (l'.state == LedgerReleased || l'.state == LedgerReleaseFailed)
    ensures LedgerOk(w', l')
  {
    hide Advances, Covers, DistinctBoxes, EntryOk, Sum, Sizes, HeldRefs;
    EntriesKept(w, w', l.entries);
  }

  lemma SettleLedgerKept(w: World, l: LedgerId, ok: bool)
    requires WInv(w) && CanSettleLedger(w, l)
    ensures WInv(SettleLedger(w, l, ok))
  {
    hide Linear, Advances, LedgerOk, SettleLedger, CanSettleLedger;
    var w' := SettleLedger(w, l, ok);
    SettleLedgerShape(w, l, ok);
    LinearIgnoresLedgers(w, w'.ledgers);
    OwnersAdvance(w, w');
    SettledLedgerOk(w, w', w.ledgers[l], w'.ledgers[l]);
    OneLedger(w, w', l);
  }

  lemma StepKept(w: World, a: Action)
    requires WInv(w) && Can(w, a)
    ensures WInv(Do(w, a))
  {
    hide Linear, LedgersInv, Advances;
    match a
    case ANewOwner(o, epoch) => NewOwnerLinear(w, o, epoch); OwnersAdvance(w, Do(w, a)); LedgersKept(w, Do(w, a));
    case AOwner(o, act) => OwnerStepLinear(w, o, act); OwnersAdvance(w, Do(w, a)); LedgersKept(w, Do(w, a));
    case AAdopt(o, b) => AdoptLinear(w, o, b); AdoptAdvances(w, o, b); LedgersKept(w, Do(w, a));
    case ANewLedger(l, limits, epoch) => NewLedgerKept(w, l, limits, epoch);
    case AAdmit(l, b, bytes) => AdmitKept(w, l, b, bytes);
    case AAdmitBytes(l, bytes) => AdmitBytesKept(w, l, bytes);
    case ADrain(l, o) => DrainKept(w, l, o);
    case AReleaseRemaining(l) => ReleaseRemainingKept(w, l);
    case ASettleLedger(l, ok) => SettleLedgerKept(w, l, ok);
    case _ => BoxStepLinear(w, a); BoxStepAdvances(w, a); LedgersKept(w, Do(w, a));
  }

  lemma {:induction false} RunInv(worlds: seq<World>, actions: seq<Action>, i: nat)
    requires IsRun(worlds, actions) && i < |worlds|
    ensures WInv(worlds[i])
    decreases i
  {
    hide WInv, Can, Do, WInit;
    if i == 0 {
      InitInv(worlds[0]);
    } else {
      RunInv(worlds, actions, i - 1);
      StepKept(worlds[i - 1], actions[i - 1]);
    }
  }

  lemma RunLinear(worlds: seq<World>, actions: seq<Action>, i: nat)
    requires IsRun(worlds, actions) && i < |worlds|
    ensures Linear(worlds[i])
  {
    hide Sum;
    RunInv(worlds, actions, i);
  }

  // ---------------------------------------------------------------- what every run guarantees

  predicate BoxHas(w: World, b: BoxId, h: Hold) { b in w.boxes && !w.boxes[b].passedOn && h in w.boxes[b].holds }

  predicate OwnerHas(w: World, o: OwnerId, h: Hold) { o in w.owners && h in w.owners[o].adopted }

  /** Every hold the store handed out has exactly one custodian, a box that has not passed it on or the
      owner that adopted it. */
  lemma OneCustodian(worlds: seq<World>, actions: seq<Action>, i: nat, h: Hold)
    requires IsRun(worlds, actions) && i < |worlds| && h in worlds[i].homes
    ensures forall b :: BoxHas(worlds[i], b, h) <==> worlds[i].homes[h] == AtBox(b)
    ensures forall o :: OwnerHas(worlds[i], o, h) <==> worlds[i].homes[h] == AtOwner(o)
  {
    var w := worlds[i];
    hide IsRun, Linear, HoldInBox;
    RunLinear(worlds, actions, i);
    HomeFact(w, h);
    forall b | BoxHas(w, b, h) ensures w.homes[h] == AtBox(b) {
      BoxFact(w, b);
      var k :| 0 <= k < |w.boxes[b].holds| && w.boxes[b].holds[k] == h;
      InBoxFact(w, b, k);
    }
    forall o | OwnerHas(w, o, h) ensures w.homes[h] == AtOwner(o) {
      OwnerFact(w, o);
      assert HoldAtOwner(w, o, w.owners[o], h);
    }
  }

  lemma HomeFact(w: World, h: Hold)
    requires Linear(w) && h in w.homes
    ensures HomeOk(w, h)
  {
    hide Sum;
  }

  lemma BoxFact(w: World, b: BoxId)
    requires Linear(w) && b in w.boxes
    ensures BoxOk(w, b)
  {
  }

  lemma InBoxFact(w: World, b: BoxId, k: nat)
    requires Linear(w) && b in w.boxes && !w.boxes[b].passedOn && k < |w.boxes[b].holds|
    ensures HoldInBox(w, b, w.boxes[b], k) && w.homes[w.boxes[b].holds[k]] == AtBox(b)
  {
    hide Sum;
    assert BoxOk(w, b);
  }

  /** No release of any hold ever succeeds twice. */
  lemma ReleasedAtMostOnce(worlds: seq<World>, actions: seq<Action>, i: nat, h: Hold)
    requires IsRun(worlds, actions) && i < |worlds|
    ensures Times(worlds[i].wins, h) <= 1
  {
    var w := worlds[i];
    hide IsRun, Linear;
    RunLinear(worlds, actions, i);
    if h in w.homes {
      HomeFact(w, h);
      match w.homes[h] {
        case AtBox(b) =>
          var k :| 0 <= k < |w.boxes[b].holds| && w.boxes[b].holds[k] == h;
          InBoxFact(w, b, k);
        case AtOwner(o) =>
          OwnerFact(w, o);
          assert HoldAtOwner(w, o, w.owners[o], h);
      }
    } else {
      HistoryFact(w);
    }
  }

  /** A frame, lease or transfer that has not passed its holds on: untouched while pending, and once its
      cleanup is over, every single hold was attempted exactly once. */
  lemma BoxReleasesEachOnce(worlds: seq<World>, actions: seq<Action>, i: nat, b: BoxId, h: Hold)
    requires IsRun(worlds, actions) && i < |worlds| && BoxHas(worlds[i], b, h)
    ensures Times(worlds[i].starts, h) <= 1
    ensures worlds[i].boxes[b].cleanup == Kept ==> Times(worlds[i].starts, h) == 0
    ensures worlds[i].boxes[b].cleanup == Cleaned ==> Times(worlds[i].starts, h) == 1
  {
    var w := worlds[i];
    hide IsRun, Linear;
    RunLinear(worlds, actions, i);
    var k :| 0 <= k < |w.boxes[b].holds| && w.boxes[b].holds[k] == h;
    InBoxFact(w, b, k);
  }

  /** A closed owner has released every hold it ever adopted, each successfully exactly once, however
      many attempts failed before. */
  lemma ClosedOwnerReleasedAll(worlds: seq<World>, actions: seq<Action>, i: nat, o: OwnerId, h: Hold)
    requires IsRun(worlds, actions) && i < |worlds| && OwnerHas(worlds[i], o, h) && worlds[i].owners[o].phase.Closed?
    ensures Times(worlds[i].wins, h) == 1
  {
    var w := worlds[i];
    hide IsRun, Linear;
    RunLinear(worlds, actions, i);
    OwnerFact(w, o);
    assert HoldAtOwner(w, o, w.owners[o], h);
  }

  /** As long as an owner has not begun its release, each hold it adopted has its reference among the
      owner's references, and each of those is kept by a hold no release was ever attempted on. */
  lemma OpenOwnerKeepsReferences(worlds: seq<World>, actions: seq<Action>, i: nat, o: OwnerId)
    requires IsRun(worlds, actions) && i < |worlds| && o in worlds[i].owners && Open(worlds[i].owners[o])
    ensures forall h :: h in worlds[i].owners[o].adopted ==> h.ref in OwnedRefs(worlds[i].owners[o])
    ensures forall k :: k in worlds[i].owners[o].byKey ==>
              OwnerHas(worlds[i], o, worlds[i].owners[o].byKey[k]) &&
                Times(worlds[i].starts, worlds[i].owners[o].byKey[k]) == 0
  {
    var w := worlds[i];
    var owner := w.owners[o];
    hide IsRun, Linear;
    RunLinear(worlds, actions, i);
    OwnerFact(w, o);
    forall h | h in owner.adopted ensures h.ref in OwnedRefs(owner) { assert ContentKey(h.ref) in owner.byKey; }
    forall k | k in owner.byKey ensures OwnerHas(w, o, owner.byKey[k]) && Times(w.starts, owner.byKey[k]) == 0 {
      assert HoldAtOwner(w, o, owner, owner.byKey[k]);
    }
  }

  /** A drain adopts a prefix of the entries; on failure the rest is exactly what it was, and a following
      release lets go of exactly that rest. */
  lemma FailedDrainIsCovered(w: World, l: LedgerId, o: OwnerId)
    requires WInv(w) && CanDrain(w, l, o)
    ensures var n := DrainCount(w, o, w.ledgers[l].entries);
            var w1 := Drain(w, l, o);
            var before, after := w.ledgers[l].entries, w1.ledgers[l].entries;
            && n <= |before| == |after|
            && (w1.ledgers[l].state == Drained <==> n == |before|)
            && o in w1.owners
            && (forall i :: 0 <= i < n ==>
                  && after[i] == before[i].(state := Routed)
                  && after[i].box in w1.boxes && Elements(w1.boxes[after[i].box].holds) <= w1.owners[o].adopted)
            && (forall i :: n <= i < |before| ==> after[i] == before[i])
            && (n < |before| ==>
                  && CanReleaseRemaining(w1, l)
                  && var w2 := ReleaseRemaining(w1, l);
                  && |w2.ledgers[l].entries| == |before|
                  && (forall i :: 0 <= i < n ==> w2.ledgers[l].entries[i] == after[i])
                  && (forall i :: n <= i < |before| ==>
                        && w2.ledgers[l].entries[i] == after[i].(state := LetGo)
                        && after[i].box in w2.boxes && !Pending(w2.boxes[after[i].box])))
  {
    hide Linear, Advances, Accounted, DrainFrom, DrainCount, LetGoFrom, CountRouted, Pending;
    var entries := w.ledgers[l].entries;
    var n := DrainCount(w, o, entries);
    var w1 := Drain(w, l, o);
    LedgerFacts(w, l);
    DrainLinear(w, o, entries);
    DrainSplits(w, o, entries);
    DrainRoutes(w, o, entries);
    DrainKept(w, l, o);
    ShapeAt(w, o, entries, w1.ledgers[l].entries, n, DrainFrom(w, o, entries).2);
    if n < |entries| {
      assert BoxesKnown(w1, w1.ledgers[l].entries);
      LetGoLinear(w1, w1.ledgers[l].entries);
    }
  }

  // ---------------------------------------------------------------- sealing

  /** The owner takes nothing in any more. */
  predicate Shut(w: World, o: OwnerId) { o in w.owners && w.owners[o].phase != Active }

  predicate SameAdopted(w: World, w': World, o: OwnerId) {
    o in w.owners && o in w'.owners && w'.owners[o].adopted == w.owners[o].adopted
  }

  lemma OwnerStaysShut(o: Owner, a: OwnerAction)
    requires o.phase != Active
    ensures DoOwner(o, a).phase != Active && DoOwner(o, a).adopted == o.adopted
  {
    hide NextAttempt;
    match a
    case OSeal =>
    case OSettleCleanup(_, _) =>
    case OBeginRelease =>
    case OStartDuplicates =>
    case OSettleDuplicate(_, _) =>
    case OStartPrimaries =>
    case ONextPrimary =>
    case OSettlePrimary(_) =>
    case OFinishRelease =>
  }

  lemma ShutAdoptsNothing(w: World, o: OwnerId, b: BoxId)
    requires Shut(w, o) && b in w.boxes
    ensures TryAdopt(w.owners[o], w.boxes[b]).None?
  {
  }

  lemma {:induction false} DrainsStayShut(w: World, to: OwnerId, entries: seq<LedgerEntry>, o: OwnerId)
    requires Shut(w, o)
    ensures var w' := DrainFrom(w, to, entries).0; Shut(w', o) && SameAdopted(w, w', o)
    decreases |entries|
  {
    hide TryAdopt;
    if entries != [] {
      var e := entries[0];
      if e.state == Waiting && Adoptable1(w, to, e.box) {
        if to == o { ShutAdoptsNothing(w, o, e.box); }
        DrainsStayShut(AdoptInto(w, to, e.box), to, entries[1..], o);
      } else if e.state != Waiting {
        DrainsStayShut(w, to, entries[1..], o);
      }
    }
  }

  lemma {:induction false} LetGoLeavesOwners(w: World, entries: seq<LedgerEntry>)
    ensures LetGoFrom(w, entries).0.owners == w.owners
    decreases |entries|
  {
    hide BeginCleanup;
    if entries != [] {
      LetGoLeavesOwners(if entries[0].state == Waiting then Cleanse(w, entries[0].box) else w, entries[1..]);
    }
  }

  lemma StepStaysShut(w: World, a: Action, o: OwnerId)
    requires Can(w, a) && Shut(w, o)
    ensures Shut(Do(w, a), o) && SameAdopted(w, Do(w, a), o)
  {
    hide DoOwner, CanOwner, Attempts, TryAdopt, DrainFrom, LetGoFrom, BeginCleanup, AdmitTransfer, AdmitBytes, Rehome,
      Bump, BoxesKnown;
    match a
    case AOwner(x, act) => OwnerStaysShut(w.owners[o], act);
    case AAdopt(x, b) => ShutAdoptsNothing(w, o, b);
    case ADrain(l, x) => DrainsStayShut(w, x, w.ledgers[l].entries, o);
    case AReleaseRemaining(l) => LetGoLeavesOwners(w, w.ledgers[l].entries);
    case _ =>
  }

  lemma SealShuts(w: World, o: OwnerId)
    requires Can(w, AOwner(o, OSeal))
    ensures Shut(Do(w, AOwner(o, OSeal)), o) && SameAdopted(w, Do(w, AOwner(o, OSeal)), o)
  {
    hide Bump;
  }

  /** From the step that seals an owner on, no adoption into it succeeds, directly or from a ledger: it never is
      active again, and the holds it ever adopted stay the same. */
  lemma {:induction false} SealedAdoptsNothing(worlds: seq<World>, actions: seq<Action>, i: nat, j: nat, o: OwnerId)
    requires IsRun(worlds, actions) && i < j <= |actions| && actions[i] == AOwner(o, OSeal)
    ensures Shut(worlds[j], o) && SameAdopted(worlds[i], worlds[j], o)
    ensures forall b :: b in worlds[j].boxes ==> TryAdopt(worlds[j].owners[o], worlds[j].boxes[b]).None?
    decreases j
  {
    hide Do, Can, TryAdopt, Shut, SameAdopted;
    SealedStep(worlds, actions, j - 1);
    if j == i + 1 {
      SealShuts(worlds[i], o);
    } else {
      SealedAdoptsNothing(worlds, actions, i, j - 1, o);
      StepStaysShut(worlds[j - 1], actions[j - 1], o);
      SameAdoptedThrough(worlds[i], worlds[j - 1], worlds[j], o);
    }
    ShutMeans(worlds[j], o);
    forall b | b in worlds[j].boxes ensures TryAdopt(worlds[j].owners[o], worlds[j].boxes[b]).None? {
      ShutAdoptsNothing(worlds[j], o, b);
    }
  }

  lemma SealedStep(worlds: seq<World>, actions: seq<Action>, i: nat)
    requires IsRun(worlds, actions) && i < |actions|
    ensures Can(worlds[i], actions[i]) && worlds[i + 1] == Do(worlds[i], actions[i])
  {
    hide Do, Can;
  }

  lemma ShutMeans(w: World, o: OwnerId)
    requires Shut(w, o)
    ensures o in w.owners && w.owners[o].phase != Active
  {
  }

  lemma SameAdoptedThrough(a: World, b: World, c: World, o: OwnerId)
    requires SameAdopted(a, b, o) && SameAdopted(b, c, o)
    ensures SameAdopted(a, c, o)
  {
  }
}

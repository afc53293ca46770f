/** The custody chain as a transition system: frame-local lists, leases, transfers, ledgers and owners.
    Releases of single holds start and settle in separate steps; everything else is synchronous. */
module CustodyModel {
  import opened Prelude
  import opened ContentRefs
  import opened OwnerModel
  import opened LedgerModel

  type OwnerId = nat
  type LedgerId = nat

  // ---------------------------------------------------------------- boxes: frames, leases, transfers

  /** How far a custodian's one-shot cleanup has come: `left` holds have not been attempted yet, apart
      from the last of them while `busy`. */
  datatype Cleanup = Kept | Releasing(left: nat, busy: bool) | Cleaned

  datatype BoxKind = Frame | Lease | Transfer

  /** `passedOn` is the source's "transferred" and "adopted"; a frame passes its holds to its lease. */
  datatype Box = Box(kind: BoxKind, holds: seq<Hold>, cleanup: Cleanup, passedOn: bool)

  predicate Pending(b: Box) { b.cleanup == Kept && !b.passedOn }

  /** `release()`: only a pending box starts a cleanup, every other call shares what is there. */
  function BeginCleanup(b: Box): Box {
    if Pending(b) then b.(cleanup := Releasing(|b.holds|, false)) else b
  }

  predicate CanNextRelease(b: Box) {
    b.cleanup.Releasing? && !b.cleanup.busy && 0 < b.cleanup.left <= |b.holds|
  }

  predicate CanSettleRelease(b: Box) {
    b.cleanup.Releasing? && b.cleanup.busy && 0 < b.cleanup.left <= |b.holds|
  }

  predicate CanEndCleanup(b: Box) { b.cleanup == Releasing(0, false) }

  function NextKind(k: BoxKind): BoxKind { if k == Frame then Lease else Transfer }

  /** `owner.adopt(transfer)`: `None` is a thrown error, and both objects are then as before. */
  function TryAdopt(o: Owner, b: Box): Option<(Owner, Box)> {
    if b.kind != Transfer || !Pending(b) then None
    else
      match Adopt(o, Refs(b.holds), b.holds)
      case None => None
      case Some(o') => Some((o', b.(passedOn := true)))
  }

  // ---------------------------------------------------------------- the world

  datatype Home = AtBox(box: BoxId) | AtOwner(owner: OwnerId)

  /** `homes`, `starts` and `wins` are history: the custodian of every hold, how often its release was
      started, and how often it succeeded. */
  datatype World = World(
    boxes: map<BoxId, Box>,
    ledgers: map<LedgerId, Ledger>,
    owners: map<OwnerId, Owner>,
    homes: map<Hold, Home>,
    starts: map<Hold, nat>,
    wins: map<Hold, nat>)

  predicate WInit(w: World) { w == World(map[], map[], map[], map[], map[], map[]) }

  function Times(m: map<Hold, nat>, h: Hold): nat { if h in m then m[h] else 0 }

  function Bump(m: map<Hold, nat>, hs: set<Hold>): map<Hold, nat> {
    map h | h in m.Keys + hs :: Times(m, h) + if h in hs then 1 else 0
  }

  function Rehome(homes: map<Hold, Home>, hs: set<Hold>, home: Home): map<Hold, Home> {
    homes + map h | h in hs :: home
  }

  function PutBox(w: World, b: BoxId, box: Box): World { w.(boxes := w.boxes[b := box]) }

  function PutOwner(w: World, o: OwnerId, owner: Owner): World { w.(owners := w.owners[o := owner]) }

  // ---------------------------------------------------------------- steps of boxes

  predicate CanNewFrame(w: World, b: BoxId) { b !in w.boxes }

  function NewFrame(w: World, b: BoxId): World { PutBox(w, b, Box(Frame, [], Kept, false)) }

  predicate CanAcquire(w: World, b: BoxId, h: Hold) {
    && b in w.boxes && w.boxes[b].kind == Frame && Pending(w.boxes[b])
    && forall x :: x in w.homes ==> x.id != h.id
  }

  /** The store returned a new hold, and the frame records it before anything else can fail. */
  function Acquire(w: World, b: BoxId, h: Hold): World {
    if !CanAcquire(w, b, h) then w
    else
      PutBox(w, b, w.boxes[b].(holds := w.boxes[b].holds + [h])).(homes := w.homes[h := AtBox(b)])
  }

  predicate CanPassOn(w: World, b: BoxId, next: BoxId) {
    b in w.boxes && w.boxes[b].kind != Transfer && Pending(w.boxes[b]) && next !in w.boxes
  }

  /** A finished frame becomes a lease; `lease.transfer()` makes the transfer. */
  function PassOn(w: World, b: BoxId, next: BoxId): World {
    if !CanPassOn(w, b, next) then w
    else
      var box := w.boxes[b];
      PutBox(PutBox(w, b, box.(passedOn := true)), next, Box(NextKind(box.kind), box.holds, Kept, false))
        .(homes := Rehome(w.homes, Elements(box.holds), AtBox(next)))
  }

  function Cleanse(w: World, b: BoxId): World {
    if b !in w.boxes then w else PutBox(w, b, BeginCleanup(w.boxes[b]))
  }

  predicate CanStartRelease(w: World, b: BoxId) { b in w.boxes && CanNextRelease(w.boxes[b]) }

  /** Holds are released one after the other, last first. */
  function StartRelease(w: World, b: BoxId): World {
    if !CanStartRelease(w, b) then w
    else
      var box := w.boxes[b];
      PutBox(w, b, box.(cleanup := Releasing(box.cleanup.left, true)))
        .(starts := Bump(w.starts, {box.holds[box.cleanup.left - 1]}))
  }

  predicate CanFinishRelease1(w: World, b: BoxId) { b in w.boxes && CanSettleRelease(w.boxes[b]) }

  /** A failed release is remembered for the caller, but never repeated. */
  function SettleRelease(w: World, b: BoxId, ok: bool): World {
    if !CanFinishRelease1(w, b) then w
    else
      var box := w.boxes[b];
      PutBox(w, b, box.(cleanup := Releasing(box.cleanup.left - 1, false)))
        .(wins := if ok then Bump(w.wins, {box.holds[box.cleanup.left - 1]}) else w.wins)
  }

  predicate CanEnd(w: World, b: BoxId) { b in w.boxes && CanEndCleanup(w.boxes[b]) }

  function EndCleanup(w: World, b: BoxId): World {
    if !CanEnd(w, b) then w else PutBox(w, b, w.boxes[b].(cleanup := Cleaned))
  }

  // ---------------------------------------------------------------- steps of owners

  datatype OwnerAction =
    | OSeal
    | OSettleCleanup(h: Hold, ok: bool)
    | OBeginRelease
    | OStartDuplicates
    | OSettleDuplicate(h: Hold, ok: bool)
    | OStartPrimaries
    | ONextPrimary
    | OSettlePrimary(ok: bool)
    | OFinishRelease

  predicate CanOwner(o: Owner, a: OwnerAction) {
    match a
    case OSeal => CanSeal(o)
    case OSettleCleanup(h, _) => CanSettleCleanup(o, h)
    case OBeginRelease => CanBeginRelease(o)
    case OStartDuplicates => CanStartDuplicates(o)
    case OSettleDuplicate(h, _) => CanSettleDuplicate(o, h)
    case OStartPrimaries => CanStartPrimaries(o)
    case ONextPrimary => CanNextPrimary(o)
    case OSettlePrimary(_) => CanSettlePrimary(o)
    case OFinishRelease => CanFinishRelease(o)
  }

  function DoOwner(o: Owner, a: OwnerAction): Owner {
    if !CanOwner(o, a) then o
    else
      match a
      case OSeal => Seal(o)
      case OSettleCleanup(h, ok) => SettleCleanup(o, h, ok)
      case OBeginRelease => BeginRelease(o)
      case OStartDuplicates => StartDuplicates(o)
      case OSettleDuplicate(h, ok) => SettleDuplicate(o, h, ok)
      case OStartPrimaries => StartPrimaries(o)
      case ONextPrimary => NextPrimary(o)
      case OSettlePrimary(ok) => SettlePrimary(o, ok)
      case OFinishRelease => FinishRelease(o)
  }

  /** The holds whose release an owner's step starts. */
  function Attempts(o: Owner, a: OwnerAction): set<Hold> {
    if !CanOwner(o, a) then {}
    else
      if a.OStartDuplicates? then o.duplicates
      else if a.ONextPrimary? && NextAttempt(o).Some? then {NextAttempt(o).value}
      else {}
  }

  predicate CanOwnerStep(w: World, o: OwnerId, a: OwnerAction) { o in w.owners && CanOwner(w.owners[o], a) }

  function OwnerStep(w: World, o: OwnerId, a: OwnerAction): World {
    if !CanOwnerStep(w, o, a) then w
    else
      var before := w.owners[o];
      var after := DoOwner(before, a);
      PutOwner(w, o, after).(
        starts := Bump(w.starts, Attempts(before, a)),
        wins := Bump(w.wins, after.freed - before.freed))
  }

  predicate CanAdoptInto(w: World, o: OwnerId, b: BoxId) { o in w.owners && b in w.boxes }

  /** Adoption moves all holds to the owner, which at once starts releasing the duplicates. */
  function AdoptInto(w: World, o: OwnerId, b: BoxId): World {
    if !CanAdoptInto(w, o, b) then w
    else
      match TryAdopt(w.owners[o], w.boxes[b])
      case None => w
      case Some((owner, box)) =>
        PutOwner(PutBox(w, b, box), o, owner).(
          homes := Rehome(w.homes, Elements(box.holds), AtOwner(o)),
          starts := Bump(w.starts, owner.inFlight - w.owners[o].inFlight))
  }

  predicate Adoptable1(w: World, o: OwnerId, b: BoxId) {
    CanAdoptInto(w, o, b) && TryAdopt(w.owners[o], w.boxes[b]).Some?
  }

  // ---------------------------------------------------------------- steps of ledgers

  predicate CanAdmit(w: World, l: LedgerId, b: BoxId) { l in w.ledgers && b in w.boxes && w.boxes[b].kind == Transfer }

  function Admit(w: World, l: LedgerId, b: BoxId, bytes: nat): World {
    if !CanAdmit(w, l, b) then w
    else
      match AdmitTransfer(w.ledgers[l], b, Refs(w.boxes[b].holds), bytes)
      case None => w
      case Some(ledger) => w.(ledgers := w.ledgers[l := ledger])
  }

  predicate BoxesKnown(w: World, entries: seq<LedgerEntry>) {
    forall i :: 0 <= i < |entries| ==> entries[i].box in w.boxes
  }

  /** Routes the waiting entries in order and stops at the first refusal. */
  function DrainFrom(w: World, o: OwnerId, entries: seq<LedgerEntry>): (World, seq<LedgerEntry>, bool)
    decreases |entries|
  {
    if entries == [] then (w, [], true)
    else
      var e := entries[0];
      assert e == entries[0];
      if e.state != Waiting then
        var (w', rest, ok) := DrainFrom(w, o, entries[1..]);
        (w', [e] + rest, ok)
      else if !Adoptable1(w, o, e.box) then (w, entries, false)
      else
        var (w', rest, ok) := DrainFrom(AdoptInto(w, o, e.box), o, entries[1..]);
        (w', [e.(state := Routed)] + rest, ok)
  }

  function CountRouted(entries: seq<LedgerEntry>): nat {
    if entries == [] then 0 else (if entries[0].state == Routed then 1 else 0) + CountRouted(entries[1..])
  }

  predicate CanDrain(w: World, l: LedgerId, o: OwnerId) {
    && l in w.ledgers && w.ledgers[l].state == LedgerOpen && o in w.owners
    && BoxesKnown(w, w.ledgers[l].entries)
  }

  function Drain(w: World, l: LedgerId, o: OwnerId): World {
    if !CanDrain(w, l, o) then w
    else
      var (w', entries, ok) := DrainFrom(w, o, w.ledgers[l].entries);
      w'.(ledgers := w.ledgers[l := w.ledgers[l].(
        entries := entries, adopted := CountRouted(entries), state := if ok then Drained else DrainFailed)])
  }

  /** Starts the release of every waiting entry. */
  function LetGoFrom(w: World, entries: seq<LedgerEntry>): (World, seq<LedgerEntry>)
    decreases |entries|
  {
    if entries == [] then (w, [])
    else
      var e := entries[0];
      assert e == entries[0];
      var (w', rest) := LetGoFrom(if e.state == Waiting then Cleanse(w, e.box) else w, entries[1..]);
      (w', [if e.state == Waiting then e.(state := LetGo) else e] + rest)
  }

  predicate CanReleaseRemaining(w: World, l: LedgerId) {
    && l in w.ledgers && (w.ledgers[l].state == LedgerOpen || w.ledgers[l].state == DrainFailed)
    && BoxesKnown(w, w.ledgers[l].entries)
  }

  function ReleaseRemaining(w: World, l: LedgerId): World {
    if !CanReleaseRemaining(w, l) then w
    else
      var (w', entries) := LetGoFrom(w, w.ledgers[l].entries);
      w'.(ledgers := w.ledgers[l := w.ledgers[l].(entries := entries, state := LedgerReleasing)])
  }

  predicate CanSettleLedger(w: World, l: LedgerId) {
    && l in w.ledgers && w.ledgers[l].state == LedgerReleasing && BoxesKnown(w, w.ledgers[l].entries)
    && forall i :: 0 <= i < |w.ledgers[l].entries| && w.ledgers[l].entries[i].state == LetGo ==>
         !w.boxes[w.ledgers[l].entries[i].box].cleanup.Releasing?
  }

  function SettleLedger(w: World, l: LedgerId, ok: bool): World {
    if !CanSettleLedger(w, l) then w
    else
      w.(ledgers := w.ledgers[l := w.ledgers[l].(state := if ok then LedgerReleased else LedgerReleaseFailed)])
  }

  // ---------------------------------------------------------------- the transition system

  datatype Action =
    | ANewFrame(b: BoxId)
    | AAcquire(b: BoxId, h: Hold)
    | APassOn(b: BoxId, next: BoxId)
    | ACleanse(b: BoxId)
    | AStartRelease(b: BoxId)
    | ASettleRelease(b: BoxId, ok: bool)
    | AEndCleanup(b: BoxId)
    | ANewOwner(o: OwnerId, epoch: string)
    | AOwner(o: OwnerId, act: OwnerAction)
    | AAdopt(o: OwnerId, b: BoxId)
    | ANewLedger(l: LedgerId, limits: LedgerLimits, epoch: string)
    | AAdmit(l: LedgerId, b: BoxId, bytes: nat)
    | AAdmitBytes(l: LedgerId, bytes: nat)
    | ADrain(l: LedgerId, o: OwnerId)
    | AReleaseRemaining(l: LedgerId)
    | ASettleLedger(l: LedgerId, ok: bool)

  predicate Can(w: World, a: Action) {
    match a
    case ANewFrame(b) => CanNewFrame(w, b)
    case AAcquire(b, h) => CanAcquire(w, b, h)
    case APassOn(b, next) => CanPassOn(w, b, next)
    case ACleanse(b) => b in w.boxes
    case AStartRelease(b) => CanStartRelease(w, b)
    case ASettleRelease(b, _) => CanFinishRelease1(w, b)
    case AEndCleanup(b) => CanEnd(w, b)
    case ANewOwner(o, _) => o !in w.owners
    case AOwner(o, act) => CanOwnerStep(w, o, act)
    case AAdopt(o, b) => CanAdoptInto(w, o, b)
    case ANewLedger(l, _, _) => l !in w.ledgers
    case AAdmit(l, b, _) => CanAdmit(w, l, b)
    case AAdmitBytes(l, bytes) => l in w.ledgers && AdmitBytes(w.ledgers[l], bytes).Some?
    case ADrain(l, o) => CanDrain(w, l, o)
    case AReleaseRemaining(l) => CanReleaseRemaining(w, l)
    case ASettleLedger(l, _) => CanSettleLedger(w, l)
  }

  function Do(w: World, a: Action): World {
    if !Can(w, a) then w
    else
      match a
      case ANewFrame(b) => NewFrame(w, b)
      case AAcquire(b, h) => Acquire(w, b, h)
      case APassOn(b, next) => PassOn(w, b, next)
      case ACleanse(b) => Cleanse(w, b)
      case AStartRelease(b) => StartRelease(w, b)
      case ASettleRelease(b, ok) => SettleRelease(w, b, ok)
      case AEndCleanup(b) => EndCleanup(w, b)
      case ANewOwner(o, epoch) => PutOwner(w, o, NewOwner(epoch))
      case AOwner(o, act) => OwnerStep(w, o, act)
      case AAdopt(o, b) => AdoptInto(w, o, b)
      case ANewLedger(l, limits, epoch) => w.(ledgers := w.ledgers[l := NewLedger(limits, epoch)])
      case AAdmit(l, b, bytes) => Admit(w, l, b, bytes)
      case AAdmitBytes(l, bytes) => w.(ledgers := w.ledgers[l := AdmitBytes(w.ledgers[l], bytes).value])
      case ADrain(l, o) => Drain(w, l, o)
      case AReleaseRemaining(l) => ReleaseRemaining(w, l)
      case ASettleLedger(l, ok) => SettleLedger(w, l, ok)
  }

  ghost predicate IsRun(worlds: seq<World>, actions: seq<Action>) {
    && |worlds| == |actions| + 1
    && WInit(worlds[0])
    && forall i :: 0 <= i < |actions| ==> Can(worlds[i], actions[i]) && worlds[i + 1] == Do(worlds[i], actions[i])
  }
}

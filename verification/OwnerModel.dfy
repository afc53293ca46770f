/** The state of a generation's content owner and its synchronous steps, as functions on values. */
module OwnerModel {
  import opened Prelude
  import opened ContentRefs

  datatype ClosingStep =
    | AwaitingCleanups
    | ReleasingDuplicates(failed: bool)
    | ReleasingPrimaries(left: nat, busy: bool, failed: bool)

  /** The source says "poisoned" both after a failed duplicate cleanup and after a failed release;
      only the latter has dropped the references. */
  datatype Phase = Active | Sealed | Poisoned | Closing(step: ClosingStep) | ReleaseFailed | Closed

  /** `adopted` and `freed` are history: every hold ever accepted, and those released successfully. */
  datatype Owner = Owner(
    epoch: string,
    byKey: map<Key, Hold>,
    primary: seq<Hold>,
    duplicates: set<Hold>,
    owned: set<Hold>,
    inFlight: set<Hold>,
    phase: Phase,
    fatal: bool,
    adopted: set<Hold>,
    freed: set<Hold>)

  function NewOwner(epoch: string): Owner {
    Owner(epoch, map[], [], {}, {}, {}, Active, false, {}, {})
  }

  predicate Open(o: Owner) { o.phase.Active? || o.phase.Sealed? || o.phase.Poisoned? }

  function OwnedRefs(o: Owner): set<Ref> { set k | k in o.byKey :: o.byKey[k].ref }

  // ---------------------------------------------------------------- adoption

  datatype Prepared = Prepared(additions: seq<Hold>, duplicates: seq<Hold>)

  /** The reference already registered or staged under a key. */
  function Existing(o: Owner, additions: seq<Hold>, k: Key): Option<Ref> {
    if k in o.byKey then Some(o.byKey[k].ref)
    else if k in ByKey(additions) then Some(ByKey(additions)[k].ref)
    else None
  }

  /** `prepareAdoption` on the first `n` pairs. */
  function Prepare(o: Owner, refs: seq<Ref>, holds: seq<Hold>, n: nat): Option<Prepared>
    requires n <= |holds| == |refs|
  {
    if n == 0 then Some(Prepared([], []))
    else
      match Prepare(o, refs, holds, n - 1)
      case None => None
      case Some(p) =>
        var h := holds[n - 1];
        if refs[n - 1].serverEpoch != o.epoch || refs[n - 1] != h.ref then None
        else if h in holds[..n - 1] || h in o.owned then None
        else
          match Existing(o, p.additions, ContentKey(h.ref))
          case None => Some(p.(additions := p.additions + [h]))
          case Some(ref) => if ref != h.ref then None else Some(p.(duplicates := p.duplicates + [h]))
  }

  function WithAdopted(o: Owner, p: Prepared): Owner {
    var duplicates := Elements(p.duplicates);
    var all := Elements(p.additions) + duplicates;
    o.(byKey := o.byKey + ByKey(p.additions),
       primary := o.primary + p.additions,
       duplicates := o.duplicates + duplicates,
       owned := o.owned + all,
       inFlight := o.inFlight + duplicates,
       adopted := o.adopted + all)
  }

  /** `None` is a thrown error; the owner is then exactly as before. */
  function Adopt(o: Owner, refs: seq<Ref>, holds: seq<Hold>): Option<Owner> {
    if o.phase != Active || |refs| != |holds| then None
    else
      match Prepare(o, refs, holds, |holds|)
      case None => None
      case Some(p) => Some(WithAdopted(o, p))
  }

  // ---------------------------------------------------------------- sealing and duplicate cleanup

  predicate CanSeal(o: Owner) { o.phase == Active || o.phase == Sealed }

  function Seal(o: Owner): Owner { o.(phase := Sealed) }

  function Freed(o: Owner, h: Hold): Owner {
    o.(owned := o.owned - {h}, freed := o.freed + {h})
  }

  predicate CanSettleCleanup(o: Owner, h: Hold) {
    h in o.inFlight && (Open(o) || o.phase == Closing(AwaitingCleanups))
  }

  /** A duplicate's background release settles; a failure poisons an owner that is still open. */
  function SettleCleanup(o: Owner, h: Hold, ok: bool): Owner {
    var o1 := o.(inFlight := o.inFlight - {h});
    if ok then Freed(o1, h).(duplicates := o.duplicates - {h})
    else o1.(phase := if Open(o) then Poisoned else o.phase, fatal := true)
  }

  // ---------------------------------------------------------------- release

  /** While a release is running, a second call shares its promise. */
  predicate CanBeginRelease(o: Owner) { !o.phase.Closing? && !o.phase.Closed? }

  function BeginRelease(o: Owner): Owner {
    o.(phase := Closing(AwaitingCleanups), byKey := map[])
  }

  predicate CanStartDuplicates(o: Owner) { o.phase == Closing(AwaitingCleanups) && o.inFlight == {} }

  function StartDuplicates(o: Owner): Owner {
    o.(phase := Closing(ReleasingDuplicates(false)), inFlight := o.duplicates)
  }

  predicate CanSettleDuplicate(o: Owner, h: Hold) {
    o.phase.Closing? && o.phase.step.ReleasingDuplicates? && h in o.inFlight
  }

  function SettleDuplicate(o: Owner, h: Hold, ok: bool): Owner {
    if !CanSettleDuplicate(o, h) then o
    else
      var o1 := o.(inFlight := o.inFlight - {h});
      if ok then Freed(o1, h).(duplicates := o.duplicates - {h})
      else o1.(phase := Closing(ReleasingDuplicates(true)))
  }

  predicate CanStartPrimaries(o: Owner) {
    o.phase.Closing? && o.phase.step.ReleasingDuplicates? && o.inFlight == {}
  }

  function StartPrimaries(o: Owner): Owner {
    if !CanStartPrimaries(o) then o
    else
      o.(phase := Closing(ReleasingPrimaries(|o.primary|, false, o.phase.step.failed)))
  }

  predicate CanNextPrimary(o: Owner) {
    && o.phase.Closing? && o.phase.step.ReleasingPrimaries?
    && !o.phase.step.busy && 0 < o.phase.step.left <= |o.primary|
  }

  /** The hold whose release the next step starts, if it is still owned. */
  function NextAttempt(o: Owner): Option<Hold> {
    if !CanNextPrimary(o) then None
    else
      var h := o.primary[o.phase.step.left - 1];
      if h in o.owned then Some(h) else None
  }

  function NextPrimary(o: Owner): Owner {
    if !CanNextPrimary(o) then o
    else
      var step := o.phase.step;
      if NextAttempt(o).Some? then o.(phase := Closing(step.(busy := true)))
      else o.(phase := Closing(step.(left := step.left - 1)))
  }

  predicate CanSettlePrimary(o: Owner) {
    && o.phase.Closing? && o.phase.step.ReleasingPrimaries?
    && o.phase.step.busy && 0 < o.phase.step.left <= |o.primary|
  }

  function SettlePrimary(o: Owner, ok: bool): Owner {
    if !CanSettlePrimary(o) then o
    else
      var step := o.phase.step;
      var o1 := o.(phase := Closing(ReleasingPrimaries(step.left - 1, false, step.failed || !ok)));
      if ok then Freed(o1, o.primary[step.left - 1]) else o1
  }

  predicate CanFinishRelease(o: Owner) {
    o.phase.Closing? && o.phase.step.ReleasingPrimaries? && o.phase.step.left == 0 && !o.phase.step.busy
  }

  function FinishRelease(o: Owner): Owner {
    if !CanFinishRelease(o) then o
    else
      if o.phase.step.failed then o.(phase := ReleaseFailed) else o.(phase := Closed, primary := [])
  }

  // ---------------------------------------------------------------- the invariant of one owner

  ghost predicate OwnerOk(o: Owner) {
    && Distinct(o.primary)
    && Elements(o.primary) !! o.duplicates
    && o.owned <= Elements(o.primary) + o.duplicates
    && o.duplicates <= o.owned
    && o.adopted == o.owned + o.freed && o.owned !! o.freed
    && (Open(o) ==> RegisterOk(o))
    && (!Open(o) ==> o.byKey == map[])
    && (forall h :: h in o.adopted ==> h.ref.serverEpoch == o.epoch)
    && InFlightOk(o)
    && (o.phase.Closing? && o.phase.step.ReleasingPrimaries? ==> PrimariesOk(o))
    && (o.phase.Closed? ==> o.owned == {})
  }

  /** Before any release: the register and the primary list name the same holds, all still owned, and
      every hold ever adopted has its reference in the register. */
  ghost predicate RegisterOk(o: Owner) {
    && (forall k :: k in o.byKey ==> o.byKey[k] in o.primary && ContentKey(o.byKey[k].ref) == k)
    && (forall h :: h in o.primary ==> h in o.owned && ContentKey(h.ref) in o.byKey && o.byKey[ContentKey(h.ref)] == h)
    && (forall h :: h in o.adopted ==> ContentKey(h.ref) in o.byKey && o.byKey[ContentKey(h.ref)].ref == h.ref)
  }

  ghost predicate InFlightOk(o: Owner) {
    && o.inFlight <= o.duplicates
    && (o.phase.ReleaseFailed? || o.phase.Closed? || (o.phase.Closing? && o.phase.step.ReleasingPrimaries?) ==>
         o.inFlight == {})
    && (o.phase.Closing? && o.phase.step.ReleasingDuplicates? && !o.phase.step.failed ==> o.duplicates == o.inFlight)
  }

  ghost predicate PrimariesOk(o: Owner)
    requires o.phase.Closing? && o.phase.step.ReleasingPrimaries?
  {
    var step := o.phase.step;
    && step.left <= |o.primary|
    && (step.busy ==> step.left > 0 && o.primary[step.left - 1] in o.owned)
    && (!step.failed ==> o.duplicates == {} && forall i :: step.left <= i < |o.primary| ==> o.primary[i] !in o.owned)
  }

  // ---------------------------------------------------------------- what adoption accepts

  /** Two holds of one key must carry one reference. */
  ghost predicate OneRefPerKey(o: Owner, holds: seq<Hold>) {
    && (forall h :: h in holds && ContentKey(h.ref) in o.byKey ==> o.byKey[ContentKey(h.ref)].ref == h.ref)
    && (forall h1, h2 :: h1 in holds && h2 in holds && ContentKey(h1.ref) == ContentKey(h2.ref) ==> h1.ref == h2.ref)
  }

  ghost predicate Adoptable(o: Owner, refs: seq<Ref>, holds: seq<Hold>) {
    && refs == Refs(holds)
    && (forall h :: h in holds ==> h.ref.serverEpoch == o.epoch && h !in o.owned)
    && Distinct(holds)
    && OneRefPerKey(o, holds)
  }

  /** What a successful preparation looks like: the holds are split into one addition per new key and
      the duplicates of registered or added references. */
  ghost predicate PreparedOk(o: Owner, holds: seq<Hold>, p: Prepared) {
    && Elements(p.additions) + Elements(p.duplicates) == Elements(holds)
    && Elements(p.additions) !! Elements(p.duplicates)
    && Distinct(p.additions)
    && (forall h :: h in p.additions ==> ContentKey(h.ref) !in o.byKey)
    && (forall h :: h in p.additions ==>
         ContentKey(h.ref) in ByKey(p.additions) && ByKey(p.additions)[ContentKey(h.ref)] == h)
    && (forall k :: k in ByKey(p.additions) ==>
         ByKey(p.additions)[k] in p.additions && ContentKey(ByKey(p.additions)[k].ref) == k)
    && (forall h :: h in p.duplicates ==> Existing(o, p.additions, ContentKey(h.ref)) == Some(h.ref))
  }

  lemma ElementsSnoc<T>(s: seq<T>, x: T)
    ensures Elements(s + [x]) == Elements(s) + {x}
  {
  }

  lemma ByKeySnoc(s: seq<Hold>, h: Hold)
    ensures ByKey(s + [h]) == ByKey(s)[ContentKey(h.ref) := h]
  {
    assert (s + [h])[..|s|] == s;
  }

  lemma AdditionOk(o: Owner, holds: seq<Hold>, p: Prepared, h: Hold)
    requires PreparedOk(o, holds, p) && h !in holds && Existing(o, p.additions, ContentKey(h.ref)).None?
    ensures PreparedOk(o, holds + [h], p.(additions := p.additions + [h]))
  {
    hide ByKey;
    var additions := p.additions + [h];
    ElementsSnoc(holds, h);
    ElementsSnoc(p.additions, h);
    ByKeySnoc(p.additions, h);
    assert h !in Elements(holds);
    assert Distinct(additions) by { assert forall x :: x in p.additions ==> x in Elements(p.additions); }
    forall k | k in ByKey(additions)
      ensures ByKey(additions)[k] in additions && ContentKey(ByKey(additions)[k].ref) == k
    {
    }
    forall x | x in additions
      ensures ContentKey(x.ref) !in o.byKey && ContentKey(x.ref) in ByKey(additions)
      ensures ByKey(additions)[ContentKey(x.ref)] == x
    {
      assert x == h || x in p.additions;
    }
    forall x | x in p.duplicates ensures Existing(o, additions, ContentKey(x.ref)) == Some(x.ref) {
      assert Existing(o, p.additions, ContentKey(x.ref)) == Some(x.ref);
    }
  }

  lemma DuplicateOk(o: Owner, holds: seq<Hold>, p: Prepared, h: Hold)
    requires PreparedOk(o, holds, p) && h !in holds && Existing(o, p.additions, ContentKey(h.ref)) == Some(h.ref)
    ensures PreparedOk(o, holds + [h], p.(duplicates := p.duplicates + [h]))
  {
    hide NewOwner;
    ElementsSnoc(holds, h);
    ElementsSnoc(p.duplicates, h);
    assert h !in Elements(holds);
  }

  lemma {:induction false} PrepareSplits(o: Owner, refs: seq<Ref>, holds: seq<Hold>, n: nat)
    requires n <= |holds| == |refs|
    ensures Prepare(o, refs, holds, n).Some? ==> PreparedOk(o, holds[..n], Prepare(o, refs, holds, n).value)
  {
    if n > 0 && Prepare(o, refs, holds, n).Some? {
      hide PreparedOk, Existing;
      PrepareSplits(o, refs, holds, n - 1);
      var p := Prepare(o, refs, holds, n - 1).value;
      var h := holds[n - 1];
      assert holds[..n] == holds[..n - 1] + [h];
      match Existing(o, p.additions, ContentKey(h.ref)) {
        case None => AdditionOk(o, holds[..n - 1], p, h);
        case Some(_) => DuplicateOk(o, holds[..n - 1], p, h);
      }
    } else if n == 0 {
      assert holds[..0] == [];
    }
  }

  lemma {:induction false} PrepareAccepts(o: Owner, refs: seq<Ref>, holds: seq<Hold>, n: nat)
    requires n <= |holds| == |refs|
    ensures Prepare(o, refs, holds, n).Some? <==> Adoptable(o, refs[..n], holds[..n])
  {
    if n == 0 {
      assert refs[..0] == Refs(holds[..0]);
    } else {
      PrepareAccepts(o, refs, holds, n - 1);
      var h := holds[n - 1];
      assert holds[..n] == holds[..n - 1] + [h] && refs[..n] == refs[..n - 1] + [refs[n - 1]];
      AdoptableSnoc(o, refs[..n - 1], holds[..n - 1], refs[n - 1], h);
      if Prepare(o, refs, holds, n - 1).Some? {
        PrepareSplits(o, refs, holds, n - 1);
        ExistingMeans(o, holds[..n - 1], Prepare(o, refs, holds, n - 1).value, h.ref);
      }
    }
  }

  ghost predicate Compatible(o: Owner, holds: seq<Hold>, ref: Ref) {
    && (ContentKey(ref) in o.byKey ==> o.byKey[ContentKey(ref)].ref == ref)
    && (forall h :: h in holds && ContentKey(h.ref) == ContentKey(ref) ==> h.ref == ref)
  }

  lemma AdoptableSnoc(o: Owner, refs: seq<Ref>, holds: seq<Hold>, ref: Ref, h: Hold)
    ensures Adoptable(o, refs + [ref], holds + [h]) <==>
              && Adoptable(o, refs, holds) && ref == h.ref && ref.serverEpoch == o.epoch
              && h !in holds && h !in o.owned && Compatible(o, holds, ref)
  {
    if Adoptable(o, refs + [ref], holds + [h]) {
      assert |refs| == |holds|;
      assert forall i :: 0 <= i < |holds| ==> (refs + [ref])[i] == refs[i] && (holds + [h])[i] == holds[i];
      assert refs == Refs(holds);
      assert (refs + [ref])[|holds|] == ref && (holds + [h])[|holds|] == h;
      assert h in holds + [h];
      forall x | x in holds ensures x in holds + [h] {}
      assert Distinct(holds) && h !in holds;
    }
    if Adoptable(o, refs, holds) && ref == h.ref && ref.serverEpoch == o.epoch && h !in holds && h !in o.owned &&
      Compatible(o, holds, ref) {
      assert refs + [ref] == Refs(holds + [h]);
      forall x | x in holds + [h] ensures x in holds || x == h {}
    }
  }

  lemma ExistingMeans(o: Owner, holds: seq<Hold>, p: Prepared, ref: Ref)
    requires PreparedOk(o, holds, p) && OneRefPerKey(o, holds)
    ensures Compatible(o, holds, ref) <==> Existing(o, p.additions, ContentKey(ref)) in {None, Some(ref)}
  {
    hide NewOwner;
    var k := ContentKey(ref);
    forall h | h in holds ensures Existing(o, p.additions, ContentKey(h.ref)) == Some(h.ref) {
      assert h in Elements(holds);
      assert h in p.additions || h in p.duplicates;
    }
    if k !in o.byKey && k in ByKey(p.additions) {
      var h := ByKey(p.additions)[k];
      assert h in Elements(p.additions);
      assert h in holds;
    }
  }

  /** Adoption succeeds exactly when the owner is active and every pair is exact, of this epoch, not yet
      registered, not repeated, and consistent in its metadata with everything of its key. */
  lemma AdoptAccepts(o: Owner, refs: seq<Ref>, holds: seq<Hold>)
    ensures Adopt(o, refs, holds).Some? <==> o.phase == Active && Adoptable(o, refs, holds)
  {
    if |refs| == |holds| {
      PrepareAccepts(o, refs, holds, |holds|);
      assert refs[..|holds|] == refs && holds[..|holds|] == holds;
    }
  }

  /** What a successful adoption does: every hold is owned, every reference is registered, no earlier
      registration changes, and only duplicates of registered references are sent to cleanup. */
  lemma AdoptKeeps(o: Owner, refs: seq<Ref>, holds: seq<Hold>)
    requires OwnerOk(o) && Adopt(o, refs, holds).Some? && forall h :: h in holds ==> h !in o.adopted
    ensures var o' := Adopt(o, refs, holds).value;
            && OwnerOk(o') && o'.phase == Active && o'.freed == o.freed
            && o'.adopted == o.adopted + Elements(holds)
            && (forall k :: k in o.byKey ==> k in o'.byKey && o'.byKey[k] == o.byKey[k])
            && (forall h :: h in holds ==> h.ref in OwnedRefs(o'))
            && o'.inFlight - o.inFlight <= Elements(holds) && o.inFlight <= o'.inFlight
            && Elements(o'.primary) !! o'.inFlight
  {
    hide NewOwner;
    AdoptAccepts(o, refs, holds);
    PrepareSplits(o, refs, holds, |holds|);
    assert holds[..|holds|] == holds;
    var p := Prepare(o, refs, holds, |holds|).value;
    AdoptKeepsRegister(o, holds, p);
    AdoptKeepsLists(o, holds, p);
    AdoptKeepsOwned(o, holds, p);
    forall h | h in holds ensures h.ref in OwnedRefs(WithAdopted(o, p)) {
      assert h in Elements(holds) && ContentKey(h.ref) in WithAdopted(o, p).byKey;
    }
  }

  /** The owner has these holds too: one primary hold for each new key, and duplicates, whose release is under
      way; all their references are registered, and everything else is as it was. */
  ghost predicate Gains(o: Owner, o': Owner, holds: seq<Hold>) {
    && o'.epoch == o.epoch && o'.phase == o.phase && o'.fatal == o.fatal && o'.freed == o.freed
    && o'.owned == o.owned + Elements(holds) && o'.adopted == o.adopted + Elements(holds)
    && o.byKey.Keys <= o'.byKey.Keys && (forall k :: k in o.byKey ==> o'.byKey[k] == o.byKey[k])
    && (forall h :: h in holds ==> ContentKey(h.ref) in o'.byKey && o'.byKey[ContentKey(h.ref)].ref == h.ref)
    && exists additions: seq<Hold>, duplicates: set<Hold> ::
         && Elements(additions) + duplicates == Elements(holds) && Elements(additions) !! duplicates
         && Distinct(additions)
         && o'.byKey.Keys - o.byKey.Keys == (set h | h in additions :: ContentKey(h.ref))
         && (forall h :: h in additions ==>
              ContentKey(h.ref) !in o.byKey && ContentKey(h.ref) in o'.byKey && o'.byKey[ContentKey(h.ref)] == h)
         && o'.primary == o.primary + additions && o'.duplicates == o.duplicates + duplicates
         && o'.inFlight == o.inFlight + duplicates
  }

  lemma AdoptGains(o: Owner, refs: seq<Ref>, holds: seq<Hold>)
    ensures Adopt(o, refs, holds).Some? ==> Gains(o, Adopt(o, refs, holds).value, holds)
  {
    hide Prepare, Gains, PreparedOk, WithAdopted, Adoptable;
    if Adopt(o, refs, holds).Some? {
      AdoptAccepts(o, refs, holds);
      PrepareSplits(o, refs, holds, |holds|);
      assert holds[..|holds|] == holds;
      PreparedGains(o, holds, Prepare(o, refs, holds, |holds|).value);
    }
  }

  lemma PreparedGains(o: Owner, holds: seq<Hold>, p: Prepared)
    requires PreparedOk(o, holds, p)
    ensures Gains(o, WithAdopted(o, p), holds)
  {
    hide Existing, ByKey, Distinct;
    var o' := WithAdopted(o, p);
    forall h | h in holds ensures ContentKey(h.ref) in o'.byKey && o'.byKey[ContentKey(h.ref)].ref == h.ref {
      assert h in Elements(holds);
      AdoptedIsRegistered(o, holds, p, h);
    }
    assert o'.byKey.Keys - o.byKey.Keys == (set h | h in p.additions :: ContentKey(h.ref));
  }

  lemma AdoptKeepsLists(o: Owner, holds: seq<Hold>, p: Prepared)
    requires OwnerOk(o) && o.phase == Active && PreparedOk(o, holds, p) && forall h :: h in holds ==> h !in o.adopted
    ensures var o' := WithAdopted(o, p);
            && Elements(o'.primary) == Elements(o.primary) + Elements(p.additions)
            && Distinct(o'.primary) && Elements(o'.primary) !! o'.duplicates && Elements(o'.primary) !! o'.inFlight
  {
    forall h | h in p.additions ensures h in holds { assert h in Elements(p.additions); }
    forall h | h in Elements(p.duplicates) ensures h in holds { assert h in Elements(holds); }
    assert forall h :: h in o.primary ==> h in o.adopted;
  }

  lemma AdoptKeepsOwned(o: Owner, holds: seq<Hold>, p: Prepared)
    requires OwnerOk(o) && o.phase == Active && PreparedOk(o, holds, p) && forall h :: h in holds ==> h !in o.adopted
    requires forall h :: h in holds ==> h.ref.serverEpoch == o.epoch
    requires Elements(WithAdopted(o, p).primary) == Elements(o.primary) + Elements(p.additions)
    ensures var o' := WithAdopted(o, p);
            && o'.owned <= Elements(o'.primary) + o'.duplicates && o'.duplicates <= o'.owned
            && o'.adopted == o.adopted + Elements(holds)
            && o'.adopted == o'.owned + o'.freed && o'.owned !! o'.freed
            && (forall h :: h in o'.adopted ==> h.ref.serverEpoch == o.epoch)
            && InFlightOk(o') && o'.inFlight - o.inFlight <= Elements(holds)
            && (forall k :: k in o.byKey ==> k in o'.byKey && o'.byKey[k] == o.byKey[k])
  {
    hide NewOwner;
    assert forall h :: h in Elements(holds) ==> h in holds;
  }

  lemma AdoptKeepsRegister(o: Owner, holds: seq<Hold>, p: Prepared)
    requires RegisterOk(o) && PreparedOk(o, holds, p)
    ensures RegisterOk(WithAdopted(o, p))
  {
    hide Existing, ByKey, Distinct, PreparedOk;
    var o' := WithAdopted(o, p);
    RegisterGrows(o, holds, p);
    forall h | h in o'.adopted ensures ContentKey(h.ref) in o'.byKey && o'.byKey[ContentKey(h.ref)].ref == h.ref {
      if h !in o.adopted { AdoptedIsRegistered(o, holds, p, h); }
    }
  }

  lemma RegisterGrows(o: Owner, holds: seq<Hold>, p: Prepared)
    requires RegisterOk(o) && PreparedOk(o, holds, p)
    ensures var all := o.byKey + ByKey(p.additions);
      && (forall k :: k in all ==> all[k] in o.primary + p.additions && ContentKey(all[k].ref) == k)
      && (forall h :: h in o.primary + p.additions ==> ContentKey(h.ref) in all && all[ContentKey(h.ref)] == h)
  {
    hide Existing, ByKey, Distinct;
  }

  lemma AdoptedIsRegistered(o: Owner, holds: seq<Hold>, p: Prepared, h: Hold)
    requires PreparedOk(o, holds, p) && (h in p.additions || h in p.duplicates)
    ensures var all := o.byKey + ByKey(p.additions); ContentKey(h.ref) in all && all[ContentKey(h.ref)].ref == h.ref
  {
    hide ByKey;
  }

  // ---------------------------------------------------------------- every other step keeps the invariant

  lemma SealKeeps(o: Owner)
    requires OwnerOk(o) && CanSeal(o)
    ensures OwnerOk(Seal(o))
  {
    hide NewOwner;
  }

  lemma SettleCleanupKeeps(o: Owner, h: Hold, ok: bool)
    requires OwnerOk(o) && CanSettleCleanup(o, h)
    ensures OwnerOk(SettleCleanup(o, h, ok)) && h in o.owned && h !in o.primary
    ensures SettleCleanup(o, h, ok).byKey == o.byKey
  {
    hide NewOwner;
    var o' := SettleCleanup(o, h, ok);
    assert h !in Elements(o.primary);
    assert o'.adopted == o'.owned + o'.freed;
    if Open(o) { assert RegisterOk(o'); }
  }

  lemma BeginReleaseKeeps(o: Owner)
    requires OwnerOk(o) && CanBeginRelease(o)
    ensures OwnerOk(BeginRelease(o))
  {
    hide NewOwner;
  }

  lemma StartDuplicatesKeeps(o: Owner)
    requires OwnerOk(o) && CanStartDuplicates(o)
    ensures OwnerOk(StartDuplicates(o))
  {
    hide NewOwner;
  }

  lemma SettleDuplicateKeeps(o: Owner, h: Hold, ok: bool)
    requires OwnerOk(o) && CanSettleDuplicate(o, h)
    ensures OwnerOk(SettleDuplicate(o, h, ok)) && h in o.owned
  {
    hide NewOwner;
    var o' := SettleDuplicate(o, h, ok);
    assert o'.adopted == o'.owned + o'.freed;
    assert h !in Elements(o.primary);
  }

  lemma StartPrimariesKeeps(o: Owner)
    requires OwnerOk(o) && CanStartPrimaries(o)
    ensures OwnerOk(StartPrimaries(o))
  {
    hide NewOwner;
  }

  lemma NextPrimaryKeeps(o: Owner)
    requires OwnerOk(o) && CanNextPrimary(o)
    ensures OwnerOk(NextPrimary(o))
  {
    hide NewOwner;
  }

  lemma SettlePrimaryKeeps(o: Owner, ok: bool)
    requires OwnerOk(o) && CanSettlePrimary(o)
    ensures OwnerOk(SettlePrimary(o, ok)) && o.primary[o.phase.step.left - 1] in o.owned
  {
    hide NewOwner;
    var o' := SettlePrimary(o, ok);
    var h := o.primary[o.phase.step.left - 1];
    assert h in Elements(o.primary);
    assert o'.adopted == o'.owned + o'.freed;
  }

  /** A release that finishes without a failure has freed everything; with one, the rest is kept for a retry. */
  lemma FinishReleaseKeeps(o: Owner)
    requires OwnerOk(o) && CanFinishRelease(o)
    ensures OwnerOk(FinishRelease(o))
    ensures FinishRelease(o).phase.Closed? ==> FinishRelease(o).freed == o.adopted
  {
    hide NewOwner;
    if !o.phase.step.failed { assert o.owned <= {}; }
  }
}

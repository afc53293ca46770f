/** The custody objects themselves, with their fields updated in place and their loops, each method proved
    against the functions of the models. */
module CustodyObjects {
  import opened Prelude
  import opened ContentRefs
  import opened OwnerModel
  import opened LedgerModel
  import opened CustodyModel

  // ---------------------------------------------------------------- the store as the objects see it

  /** Records every release the objects attempt; the outcome is the store's. */
  class HoldReleaser {
    var attempts: seq<(Hold, bool)>

    constructor ()
      ensures attempts == []
    {
      attempts := [];
    }

    method Release(h: Hold) returns (ok: bool)
      modifies this
      ensures attempts == old(attempts) + [(h, ok)]
    {
      ok := *;
      attempts := attempts + [(h, ok)];
    }
  }

  function Reversed<T>(s: seq<T>): (r: seq<T>)
    ensures |r| == |s| && forall k :: 0 <= k < |s| ==> r[k] == s[|s| - 1 - k]
  {
    if s == [] then [] else [s[|s| - 1]] + Reversed(s[..|s| - 1])
  }

  function Tried(attempts: seq<(Hold, bool)>): (r: seq<Hold>)
    ensures |r| == |attempts| && forall i :: 0 <= i < |r| ==> r[i] == attempts[i].0
  {
    seq(|attempts|, i requires 0 <= i < |attempts| => attempts[i].0)
  }

  predicate AllOk(attempts: seq<(Hold, bool)>) { forall a :: a in attempts ==> a.1 }

  lemma ReversedStep<T>(s: seq<T>, k: nat)
    requires k < |s|
    ensures Reversed(s[k..]) == Reversed(s[k + 1..]) + [s[k]]
    decreases |s| - k
  {
    var t := s[k..];
    if k + 1 < |s| {
      ReversedStep(s[..|s| - 1], k);
      assert t[..|t| - 1] == s[..|s| - 1][k..];
      assert s[k + 1..][..|s| - k - 2] == s[..|s| - 1][k + 1..];
    }
  }

  /** The holds of a list that are still owned, in their order. */
  function StillOwned(s: seq<Hold>, owned: set<Hold>): seq<Hold> {
    if s == [] then [] else (if s[0] in owned then [s[0]] else []) + StillOwned(s[1..], owned)
  }

  /** The next attempt, going backwards through the list. */
  lemma NextInOrder(before: seq<(Hold, bool)>, mark: nat, s: seq<Hold>, i: nat, owned: set<Hold>, ok: bool)
    requires mark <= |before| && i < |s|
    requires Tried(before[mark..]) == Reversed(StillOwned(s[i + 1..], owned))
    ensures s[i] in owned ==> Tried((before + [(s[i], ok)])[mark..]) == Reversed(StillOwned(s[i..], owned))
    ensures s[i] !in owned ==> Tried(before[mark..]) == Reversed(StillOwned(s[i..], owned))
  {
    var rest := StillOwned(s[i + 1..], owned);
    assert s[i..][0] == s[i] && s[i..][1..] == s[i + 1..];
    assert StillOwned(s[i..], owned) == (if s[i] in owned then [s[i]] else []) + rest;
    if s[i] in owned {
      ReversedStep([s[i]] + rest, 0);
      assert ([s[i]] + rest)[0..] == [s[i]] + rest && ([s[i]] + rest)[1..] == rest;
      assert (before + [(s[i], ok)])[mark..] == before[mark..] + [(s[i], ok)];
      assert Tried(before[mark..] + [(s[i], ok)]) == Tried(before[mark..]) + [s[i]];
    } else {
      assert [] + rest == rest;
    }
  }

  lemma {:induction false} DistinctCount<T>(s: seq<T>)
    requires Distinct(s)
    ensures |Elements(s)| == |s|
  {
    if s != [] {
      var init, last := s[..|s| - 1], s[|s| - 1];
      DistinctCount(init);
      assert s == init + [last];
      assert Elements(s) == Elements(init) + {last} && last !in Elements(init);
    }
  }

  lemma {:induction false} StillOwnedSame(s: seq<Hold>, owned: set<Hold>, owned': set<Hold>)
    requires forall h :: h in s ==> (h in owned <==> h in owned')
    ensures StillOwned(s, owned) == StillOwned(s, owned')
  {
    if s != [] { StillOwnedSame(s[1..], owned, owned'); }
  }

  /** Every hold is attempted once, last first, whatever fails on the way. */
  method ReleaseHolds(store: HoldReleaser, holds: seq<Hold>) returns (ok: bool)
    modifies store
    ensures |store.attempts| == |old(store.attempts)| + |holds| && old(store.attempts) <= store.attempts
    ensures Tried(store.attempts[|old(store.attempts)|..]) == Reversed(holds)
    ensures ok <==> AllOk(store.attempts[|old(store.attempts)|..])
  {
    ok := true;
    var i := |holds|;
    ghost var start := |store.attempts|;
    while i > 0
      invariant 0 <= i <= |holds| && |store.attempts| == start + |holds| - i
      invariant old(store.attempts) <= store.attempts
      invariant Tried(store.attempts[start..]) == Reversed(holds[i..])
      invariant ok <==> AllOk(store.attempts[start..])
    {
      i := i - 1;
      ghost var before := store.attempts;
      var released := store.Release(holds[i]);
      ok := ok && released;
      ReversedStep(holds, i);
      assert store.attempts[start..] == before[start..] + [(holds[i], released)];
    }
    assert holds[0..] == holds;
  }

  // ---------------------------------------------------------------- lease and transfer

  datatype TransferState = TransferPending | Adopting | TransferAdopted | TransferReleasing | TransferReleased

  class PayloadTransfer {
    const id: BoxId
    const refs: seq<Ref>
    const holds: seq<Hold>
    var state: TransferState

    /** Between two calls a transfer is never in the middle of a synchronous adoption. */
    predicate Idle() reads this { state != Adopting && refs == Refs(holds) }

    ghost function Model(): Box reads this {
      Box(CustodyModel.Transfer, holds,
          if state.TransferReleased? then Cleaned else if state.TransferReleasing? then Releasing(|holds|, false)
          else Kept,
          state.TransferAdopted?)
    }

    constructor (id: BoxId, holds: seq<Hold>)
      ensures Idle() && this.id == id && this.holds == holds
      ensures Model() == Box(CustodyModel.Transfer, holds, Kept, false)
    {
      this.id := id;
      this.holds := holds;
      refs := Refs(holds);
      state := TransferPending;
    }

    /** First half of `adopt`: refuses unless pending. */
    method BeginAdopt() returns (ok: bool)
      modifies this
      ensures ok <==> old(state) == TransferPending
      ensures state == if ok then Adopting else old(state)
    {
      ok := state == TransferPending;
      if ok { state := Adopting; }
    }

    /** Second half: the callback accepted, or threw. */
    method EndAdopt(accepted: bool)
      requires state == Adopting
      modifies this
      ensures state == if accepted then TransferAdopted else TransferPending
    {
      state := if accepted then TransferAdopted else TransferPending;
    }

    /** A whole release: only a pending transfer attempts anything, and it does so once for each hold. */
    method Release(store: HoldReleaser) returns (ok: bool)
      requires Idle()
      modifies this, store
      ensures Idle() && state == if old(state) == TransferPending then TransferReleased else old(state)
      ensures old(state) != TransferPending ==> store.attempts == old(store.attempts) && ok
      ensures old(state) == TransferPending ==>
                && |store.attempts| == |old(store.attempts)| + |holds| && old(store.attempts) <= store.attempts
                && Tried(store.attempts[|old(store.attempts)|..]) == Reversed(holds)
                && (ok <==> AllOk(store.attempts[|old(store.attempts)|..]))
    {
      if state != TransferPending { return true; }
      state := TransferReleasing;
      ok := ReleaseHolds(store, holds);
      state := TransferReleased;
    }
  }

  datatype LeaseState = Provisional | LeaseReleased | Transferred

  class PayloadLease {
    const holds: seq<Hold>
    var state: LeaseState

    ghost function Model(): Box reads this {
      Box(CustodyModel.Lease, holds, if state.LeaseReleased? then Cleaned else Kept, state.Transferred?)
    }

    constructor (holds: seq<Hold>)
      ensures this.holds == holds && Model() == Box(CustodyModel.Lease, holds, Kept, false)
    {
      this.holds := holds;
      state := Provisional;
    }

    /** One shot: at most one transfer is ever made, and it takes over exactly the lease's holds. */
    method TransferOnce(id: BoxId) returns (t: PayloadTransfer?)
      modifies this
      ensures t != null <==> old(state) == Provisional
      ensures state == if t != null then Transferred else old(state)
      ensures t != null ==> fresh(t) && t.Idle() && t.state == TransferPending && t.id == id && t.holds == holds
    {
      if state != Provisional { return null; }
      state := Transferred;
      t := new PayloadTransfer(id, holds);
    }

    method Release(store: HoldReleaser) returns (ok: bool)
      modifies this, store
      ensures state == if old(state) == Provisional then LeaseReleased else old(state)
      ensures old(state) != Provisional ==> store.attempts == old(store.attempts) && ok
      ensures old(state) == Provisional ==>
                && |store.attempts| == |old(store.attempts)| + |holds| && old(store.attempts) <= store.attempts
                && Tried(store.attempts[|old(store.attempts)|..]) == Reversed(holds)
                && (ok <==> AllOk(store.attempts[|old(store.attempts)|..]))
    {
      if state != Provisional { return true; }
      ok := ReleaseHolds(store, holds);
      state := LeaseReleased;
    }
  }

  // ---------------------------------------------------------------- the owner

  lemma {:induction false} PrepareStuck(o: Owner, refs: seq<Ref>, holds: seq<Hold>, m: nat, n: nat)
    requires m <= n <= |holds| == |refs| && Prepare(o, refs, holds, m).None?
    ensures Prepare(o, refs, holds, n).None?
    decreases n
  {
    if m < n { PrepareStuck(o, refs, holds, m, n - 1); }
  }

  /** The attempts of one release: each hold tried once, and exactly the successes no longer owned. */
  ghost predicate Attempted(log: seq<(Hold, bool)>, tried: set<Hold>, owned: set<Hold>) {
    && Distinct(Tried(log)) && Elements(Tried(log)) == tried
    && forall a :: a in log ==> (a.1 <==> a.0 !in owned)
  }

  ghost predicate Remaining(owned0: set<Hold>, freed0: set<Hold>, tried: set<Hold>, owned: set<Hold>,
      freed: set<Hold>) {
    tried <= owned0 && owned0 - tried <= owned <= owned0 && freed == freed0 + (owned0 - owned)
  }

  lemma AttemptedMore(log: seq<(Hold, bool)>, tried: set<Hold>, owned: set<Hold>, h: Hold, ok: bool)
    requires Attempted(log, tried, owned) && h in owned && h !in tried
    ensures Attempted(log + [(h, ok)], tried + {h}, if ok then owned - {h} else owned)
  {
    var log' := log + [(h, ok)];
    assert Tried(log') == Tried(log) + [h];
    ElementsSnoc(Tried(log), h);
    forall a | a in log ensures a.0 in tried {
      var i :| 0 <= i < |log| && log[i] == a;
      assert Tried(log)[i] == a.0;
    }
    assert h !in Elements(Tried(log));
  }

  lemma AttemptedNext(attempts: seq<(Hold, bool)>, start: nat, tried: set<Hold>, owned0: set<Hold>,
      freed0: set<Hold>, owned: set<Hold>,
                      freed: set<Hold>, h: Hold, ok: bool)
    requires start <= |attempts| && Attempted(attempts[start..], tried, owned)
    requires Remaining(owned0, freed0, tried, owned, freed)
    requires h in owned && h !in tried
    ensures var owned' := if ok then owned - {h} else owned;
            && Attempted((attempts + [(h, ok)])[start..], tried + {h}, owned')
            && Remaining(owned0, freed0, tried + {h}, owned', if ok then freed + {h} else freed)
            && (tried + {h}) * owned' == tried * owned + (if ok then {} else {h})
  {
    AttemptedMore(attempts[start..], tried, owned, h, ok);
    assert (attempts + [(h, ok)])[start..] == attempts[start..] + [(h, ok)];
  }

  lemma Grow<T>(a: set<T>, b: set<T>, x: T)
    ensures a + b + {x} == a + (b + {x}) && a + {} == a
  {
  }

  lemma NoElements(s: seq<Hold>)
    ensures Elements(s[..0]) == {} && ByKey(s[..0]) == map[] && forall a: map<Key, Hold> :: a + map[] == a
  {
  }

  lemma ElementsTake(s: seq<Hold>, i: nat)
    requires i < |s|
    ensures Elements(s[..i + 1]) == Elements(s[..i]) + {s[i]}
    ensures ByKey(s[..i + 1]) == ByKey(s[..i])[ContentKey(s[i].ref) := s[i]]
  {
    assert s[..i + 1] == s[..i] + [s[i]];
    ElementsSnoc(s[..i], s[i]);
    ByKeySnoc(s[..i], s[i]);
  }

  lemma MergeSnoc<K, V>(m: map<K, V>, n: map<K, V>, k: K, v: V)
    ensures (m + n)[k := v] == m + n[k := v]
  {
  }

  class GenerationContentOwner {
    const epoch: string
    var byKey: map<Key, Hold>
    var primary: seq<Hold>
    var duplicates: set<Hold>
    var owned: set<Hold>
    var inFlight: set<Hold>
    var phase: Phase
    var fatal: bool
    ghost var adopted: set<Hold>
    ghost var freed: set<Hold>

    ghost function Model(): Owner reads this {
      Owner(epoch, byKey, primary, duplicates, owned, inFlight, phase, fatal, adopted, freed)
    }

    constructor (epoch: string)
      ensures Model() == NewOwner(epoch)
    {
      this.epoch := epoch;
      byKey, primary, duplicates, owned, inFlight := map[], [], {}, {}, {};
      phase, fatal := Active, false;
      adopted, freed := {}, {};
    }

    /** Adoption is closed for good, and nothing else changes. */
    method SealAdoption() returns (ok: bool)
      modifies `phase
      ensures ok <==> old(phase) == Active || old(phase) == Sealed
      ensures phase == if ok then Sealed else old(phase)
      ensures ok <==> CanSeal(old(Model()))
      ensures Model() == if ok then Seal(old(Model())) else old(Model())
    {
      if phase == Sealed { return true; }
      if phase != Active { return false; }
      phase := Sealed;
      return true;
    }

    /** The preflight over all pairs; it changes nothing. */
    method PrepareAdoption(refs: seq<Ref>, holds: seq<Hold>) returns (r: Option<Prepared>)
      ensures |refs| != |holds| ==> r == None
      ensures |refs| == |holds| ==> r == Prepare(Model(), refs, holds, |holds|)
    {
      if |refs| != |holds| { return None; }
      var additions: seq<Hold>, dups: seq<Hold> := [], [];
      var staged: map<Key, Hold> := map[];
      var seen: set<Hold> := {};
      var i := 0;
      while i < |holds|
        invariant i <= |holds|
        invariant Prepare(Model(), refs, holds, i) == Some(Prepared(additions, dups))
        invariant staged == ByKey(additions) && seen == Elements(holds[..i])
      {
        var h := holds[i];
        if refs[i].serverEpoch != epoch || refs[i] != h.ref || h in seen || h in owned {
          PrepareStuck(Model(), refs, holds, i + 1, |holds|);
          return None;
        }
        assert holds[..i + 1] == holds[..i] + [h];
        seen := seen + {h};
        var k := ContentKey(h.ref);
        if k in byKey || k in staged {
          if (if k in byKey then byKey[k] else staged[k]).ref != h.ref {
            PrepareStuck(Model(), refs, holds, i + 1, |holds|);
            return None;
          }
          dups := dups + [h];
        } else {
          ByKeySnoc(additions, h);
          staged := staged[k := h];
          additions := additions + [h];
        }
        i := i + 1;
      }
      return Some(Prepared(additions, dups));
    }

    /** Adoption through the transfer's callback: both objects change, or neither. */
    method AdoptTransfer(t: PayloadTransfer) returns (ok: bool)
      requires t.Idle()
      modifies this, t
      ensures ok <==>
        old(phase) == Active && old(t.state) == TransferPending && old(Adoptable(Model(), t.refs, t.holds))
      ensures ok ==> t.state == TransferAdopted && Gains(old(Model()), Model(), t.holds)
      ensures t.Idle() && ok == TryAdopt(old(Model()), old(t.Model())).Some?
      ensures ok ==> (Model(), t.Model()) == TryAdopt(old(Model()), old(t.Model())).value
      ensures !ok ==> Model() == old(Model()) && t.state == old(t.state)
    {
      hide Prepare, Adoptable, Gains;
      AdoptAccepts(Model(), t.refs, t.holds);
      AdoptGains(Model(), t.refs, t.holds);
      if phase != Active { return false; }
      var begun := t.BeginAdopt();
      if !begun { return false; }
      var r := PrepareAdoption(t.refs, t.holds);
      match r {
        case None =>
          t.EndAdopt(false);
          return false;
        case Some(p) =>
          AddAll(p.additions);
          AddDuplicates(p.duplicates);
          assert old(owned) + Elements(p.additions) + Elements(p.duplicates) ==
            old(owned) + (Elements(p.additions) + Elements(p.duplicates));
          assert old(adopted) + Elements(p.additions) + Elements(p.duplicates) ==
            old(adopted) + (Elements(p.additions) + Elements(p.duplicates));
          assert Model() == WithAdopted(old(Model()), p);
          t.EndAdopt(true);
          return true;
      }
    }

    /** The duplicates are owned too, and their background release starts. */
    method AddDuplicates(dups: seq<Hold>)
      modifies this
      ensures Model() == old(Model()).(
                duplicates := old(duplicates) + Elements(dups), owned := old(owned) + Elements(dups),
                inFlight := old(inFlight) + Elements(dups), adopted := old(adopted) + Elements(dups))
    {
      hide Elements;
      var i := 0;
      NoElements(dups);
      while i < |dups|
        invariant i <= |dups|
        invariant byKey == old(byKey) && primary == old(primary) && phase == old(phase) && fatal == old(fatal)
        invariant freed == old(freed)
        invariant duplicates == old(duplicates) + Elements(dups[..i]) && owned == old(owned) + Elements(dups[..i])
        invariant inFlight == old(inFlight) + Elements(dups[..i]) && adopted == old(adopted) + Elements(dups[..i])
      {
        ghost var so := Elements(dups[..i]);
        ElementsTake(dups, i);
        Grow(old(duplicates), so, dups[i]);
        Grow(old(owned), so, dups[i]);
        Grow(old(inFlight), so, dups[i]);
        Grow(old(adopted), so, dups[i]);
        duplicates, owned, inFlight, adopted :=
          duplicates + {dups[i]}, owned + {dups[i]}, inFlight + {dups[i]}, adopted + {dups[i]};
        i := i + 1;
      }
      assert dups[..|dups|] == dups;
    }

    method AddAll(additions: seq<Hold>)
      modifies this
      ensures Model() == old(Model()).(
                byKey := old(byKey) + ByKey(additions), primary := old(primary) + additions,
                owned := old(owned) + Elements(additions), adopted := old(adopted) + Elements(additions))
    {
      hide Elements, ByKey;
      var i := 0;
      NoElements(additions);
      while i < |additions|
        invariant i <= |additions|
        invariant duplicates == old(duplicates) && inFlight == old(inFlight) && phase == old(phase)
        invariant fatal == old(fatal) && freed == old(freed)
        invariant byKey == old(byKey) + ByKey(additions[..i]) && primary == old(primary) + additions[..i]
        invariant owned == old(owned) + Elements(additions[..i]) && adopted == old(adopted) + Elements(additions[..i])
      {
        var h := additions[i];
        ElementsTake(additions, i);
        MergeSnoc(old(byKey), ByKey(additions[..i]), ContentKey(h.ref), h);
        Grow(old(owned), Elements(additions[..i]), h);
        Grow(old(adopted), Elements(additions[..i]), h);
        assert old(primary) + additions[..i] + [h] == old(primary) + additions[..i + 1];
        byKey := byKey[ContentKey(h.ref) := h];
        primary := primary + [h];
        owned := owned + {h};
        adopted := adopted + {h};
        i := i + 1;
      }
      assert additions[..|additions|] == additions;
    }

    method CleanupSettled(h: Hold, ok: bool)
      requires CanSettleCleanup(Model(), h)
      modifies this
      ensures inFlight == old(inFlight) - {h}
      ensures owned == (if ok then old(owned) - {h} else old(owned))
      ensures duplicates == (if ok then old(duplicates) - {h} else old(duplicates))
      ensures freed == (if ok then old(freed) + {h} else old(freed))
      ensures byKey == old(byKey) && primary == old(primary) && adopted == old(adopted)
      ensures phase == if !ok && old(phase) in {Active, Sealed} then Poisoned else old(phase)
      ensures fatal == (!ok || old(fatal))
      ensures Model() == SettleCleanup(old(Model()), h, ok)
    {
      inFlight := inFlight - {h};
      if ok {
        duplicates, owned, freed := duplicates - {h}, owned - {h}, freed + {h};
      } else {
        if phase == Active || phase == Sealed { phase := Poisoned; }
        fatal := true;
      }
    }

    /** The retained duplicates are attempted in some order, each once. */
    method ReleaseDuplicates(store: HoldReleaser) returns (ghost tried: set<Hold>, failed: bool)
      requires duplicates <= owned
      modifies this, store
      ensures |store.attempts| >= |old(store.attempts)| && old(store.attempts) <= store.attempts
      ensures Attempted(store.attempts[|old(store.attempts)|..], tried, owned)
      ensures Remaining(old(owned), old(freed), tried, owned, freed) && (failed <==> tried * owned != {})
      ensures tried == old(duplicates) && duplicates == old(duplicates) * owned
      ensures byKey == old(byKey) && primary == old(primary) && adopted == old(adopted) && inFlight == old(inFlight)
    {
      hide Attempted;
      ghost var start := |store.attempts|;
      tried, failed := {}, false;
      var rest := duplicates;
      assert Attempted(store.attempts[start..], tried, owned) by { AttemptedNothing(store.attempts, owned); }
      while rest != {}
        invariant byKey == old(byKey) && primary == old(primary) && adopted == old(adopted) && inFlight == old(inFlight)
        invariant start <= |store.attempts| && old(store.attempts) <= store.attempts
        invariant Attempted(store.attempts[start..], tried, owned)
        invariant Remaining(old(owned), old(freed), tried, owned, freed) && (failed <==> tried * owned != {})
        invariant rest == old(duplicates) - tried && tried <= old(duplicates) && duplicates == old(duplicates) * owned
        decreases rest
      {
        var h :| h in rest;
        ghost var before := store.attempts;
        var released := store.Release(h);
        AttemptedNext(before, start, tried, old(owned), old(freed), owned, freed, h, released);
        tried, rest := tried + {h}, rest - {h};
        if released { duplicates, owned, freed := duplicates - {h}, owned - {h}, freed + {h}; } else { failed := true; }
      }
    }

    /** Then the primary holds, last adopted first, skipping those a former release has freed. */
    method ReleasePrimaries(store: HoldReleaser, ghost start: nat, ghost owned0: set<Hold>, ghost freed0: set<Hold>,
        ghost tried0: set<Hold>, failed0: bool)
        returns (ghost tried: set<Hold>, failed: bool)
      requires start <= |store.attempts| && Attempted(store.attempts[start..], tried0, owned)
      requires Remaining(owned0, freed0, tried0, owned, freed) && (failed0 <==> tried0 * owned != {})
      requires Distinct(primary) && Elements(primary) !! tried0
      modifies this, store
      ensures |store.attempts| >= |old(store.attempts)| && old(store.attempts) <= store.attempts
      ensures Attempted(store.attempts[start..], tried, owned)
      ensures Remaining(owned0, freed0, tried, owned, freed) && (failed <==> tried * owned != {})
      ensures tried == tried0 + (Elements(primary) * owned0)
      ensures Tried(store.attempts[|old(store.attempts)|..]) == Reversed(StillOwned(primary, old(owned)))
      ensures owned <= old(owned) && old(owned) - owned <= Elements(primary)
      ensures byKey == old(byKey) && primary == old(primary) && adopted == old(adopted)
      ensures inFlight == old(inFlight) && duplicates == old(duplicates)
    {
      hide Attempted, Tried, Reversed, StillOwned;
      ghost var mark := |store.attempts|;
      tried, failed := tried0, failed0;
      var i := |primary|;
      NothingInOrder(store.attempts, primary, owned);
      while i > 0
        invariant byKey == old(byKey) && primary == old(primary) && adopted == old(adopted)
        invariant inFlight == old(inFlight) && duplicates == old(duplicates)
        invariant start <= |store.attempts| && old(store.attempts) <= store.attempts
        invariant Attempted(store.attempts[start..], tried, owned)
        invariant Remaining(owned0, freed0, tried, owned, freed) && (failed <==> tried * owned != {})
        invariant 0 <= i <= |primary| && tried == tried0 + (Elements(primary[i..]) * owned0)
        invariant owned <= old(owned) && old(owned) - owned <= Elements(primary[i..])
        invariant mark <= |store.attempts|
        invariant Tried(store.attempts[mark..]) == Reversed(StillOwned(primary[i..], old(owned)))
      {
        i := i - 1;
        var h := primary[i];
        TailElements(primary, i);
        if h in owned {
          ghost var before := store.attempts;
          var released := store.Release(h);
          AttemptedNext(before, start, tried, owned0, freed0, owned, freed, h, released);
          NextInOrder(before, mark, primary, i, old(owned), released);
          tried := tried + {h};
          if released { owned, freed := owned - {h}, freed + {h}; } else { failed := true; }
        } else {
          NextInOrder(store.attempts, mark, primary, i, old(owned), false);
        }
      }
      assert primary[0..] == primary;
    }

    /** A whole release once the cleanups under way have settled: every hold still owned is attempted
        exactly once, first the duplicates and then the primary holds, last adopted first; exactly the failed
        ones stay owned, and the owner is closed or ready for a retry. */
    method Release(store: HoldReleaser) returns (ok: bool)
      requires OwnerOk(Model()) && CanBeginRelease(Model()) && inFlight == {}
      modifies this, store
      ensures OwnerOk(Model()) && byKey == map[] && adopted == old(adopted)
      ensures |store.attempts| >= |old(store.attempts)| && old(store.attempts) <= store.attempts
      ensures var tried := Tried(store.attempts[|old(store.attempts)|..]);
        && Distinct(tried) && Elements(tried) == old(owned)
        && |old(duplicates)| <= |tried| && Elements(tried[..|old(duplicates)|]) == old(duplicates)
        && tried[|old(duplicates)|..] == Reversed(StillOwned(old(primary), old(owned)))
      ensures forall a :: a in store.attempts[|old(store.attempts)|..] ==> (a.1 <==> a.0 !in owned)
      ensures owned <= old(owned) && freed == old(freed) + (old(owned) - owned)
      ensures phase == (if ok then Closed else ReleaseFailed) && (ok <==> owned == {})
    {
      hide Attempted, Tried, Elements, Distinct, Reversed, StillOwned;
      byKey := map[];
      ghost var start := |store.attempts|;
      PrimariesAndDuplicates(old(Model()));
      ghost var tried;
      var failed;
      tried, failed := ReleaseDuplicates(store);
      ghost var between := Model();
      ghost var first := store.attempts;
      AttemptedMeans(first[start..], tried, owned);
      tried, failed := ReleasePrimaries(store, start, old(owned), old(freed), tried, failed);
      AttemptedMeans(store.attempts[start..], tried, owned);
      InOrder(first, store.attempts, start, old(Model()), between);
      if failed {
        phase := ReleaseFailed;
      } else {
        phase, primary := Closed, [];
      }
      ok := !failed;
      ReleasedOk(old(Model()), between, Model(), tried);
    }
  }

  lemma NothingInOrder(attempts: seq<(Hold, bool)>, s: seq<Hold>, owned: set<Hold>)
    ensures Tried(attempts[|attempts|..]) == Reversed(StillOwned(s[|s|..], owned))
  {
  }

  /** The attempts of a whole release: the duplicates, then the primary holds backwards. */
  lemma InOrder(first: seq<(Hold, bool)>, all: seq<(Hold, bool)>, start: nat, o: Owner, between: Owner)
    requires start <= |first| && first <= all
    requires Distinct(Tried(first[start..])) && Elements(Tried(first[start..])) == o.duplicates
    requires Elements(o.primary) !! o.duplicates
    requires between.owned <= o.owned && o.owned - between.owned <= o.duplicates
    requires Tried(all[|first|..]) == Reversed(StillOwned(o.primary, between.owned))
    ensures var tried := Tried(all[start..]);
      && |o.duplicates| <= |tried| && Elements(tried[..|o.duplicates|]) == o.duplicates
      && tried[|o.duplicates|..] == Reversed(StillOwned(o.primary, o.owned))
  {
    hide Reversed, Distinct;
    DistinctCount(Tried(first[start..]));
    forall h | h in o.primary ensures h in between.owned <==> h in o.owned { assert h in Elements(o.primary); }
    StillOwnedSame(o.primary, between.owned, o.owned);
    assert Tried(all[start..])[..|o.duplicates|] == Tried(first[start..]);
    assert Tried(all[start..])[|o.duplicates|..] == Tried(all[|first|..]);
  }

  /** What is left after a whole release is in order again. */
  lemma ReleasedOk(o: Owner, between: Owner, o': Owner, tried: set<Hold>)
    requires OwnerOk(o) && o.inFlight == {}
    requires between.owned <= o.owned && between.duplicates == o.duplicates * between.owned
    requires o'.duplicates == between.duplicates && o'.owned <= between.owned
    requires between.owned - o'.owned <= Elements(o.primary)
    requires Remaining(o.owned, o.freed, tried, o'.owned, o'.freed)
    requires tried == o.duplicates + Elements(o.primary) * o.owned
    requires o'.epoch == o.epoch && o'.byKey == map[] && o'.adopted == o.adopted && o'.inFlight == {}
    requires (o'.phase.ReleaseFailed? && o'.primary == o.primary) ||
      (o'.phase.Closed? && o'.primary == [] && tried * o'.owned == {})
    ensures OwnerOk(o') && tried == o.owned && (o'.phase.Closed? ==> o'.owned == {})
  {
    assert o.owned == tried;
    if o'.phase.Closed? { assert o'.owned == {}; }
  }

  lemma AttemptedMeans(log: seq<(Hold, bool)>, tried: set<Hold>, owned: set<Hold>)
    requires Attempted(log, tried, owned)
    ensures Distinct(Tried(log)) && Elements(Tried(log)) == tried && forall a :: a in log ==> (a.1 <==> a.0 !in owned)
  {
  }

  lemma PrimariesAndDuplicates(o: Owner)
    requires OwnerOk(o)
    ensures Distinct(o.primary) && Elements(o.primary) !! o.duplicates && o.duplicates <= o.owned
    ensures o.owned <= Elements(o.primary) + o.duplicates
  {
  }

  lemma AttemptedNothing(attempts: seq<(Hold, bool)>, owned: set<Hold>)
    ensures Attempted(attempts[|attempts|..], {}, owned)
  {
  }

  lemma TailElements(s: seq<Hold>, i: nat)
    requires i < |s| && Distinct(s)
    ensures Elements(s[i..]) == Elements(s[i + 1..]) + {s[i]} && s[i] !in Elements(s[i + 1..])
    ensures Elements(s[i..]) <= Elements(s)
  {
    assert s[i..] == [s[i]] + s[i + 1..];
  }
}

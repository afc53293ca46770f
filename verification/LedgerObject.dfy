/** The transition ledger as an object: admission, draining and terminal cleanup, with their loops. */
module LedgerObject {
  import opened Prelude
  import opened ContentRefs
  import opened OwnerModel
  import opened LedgerModel
  import opened LedgerAdmission
  import opened CustodyModel
  import opened CustodyObjects

  lemma {:induction false} StageRefsStuck(l: Ledger, refs: seq<Ref>, m: nat, n: nat)
    requires m <= n <= |refs| && StageRefs(l, refs, m).None?
    ensures StageRefs(l, refs, n).None?
    decreases n
  {
    if m < n { StageRefsStuck(l, refs, m, n - 1); }
  }

  function Flatten<T>(parts: seq<seq<T>>): seq<T> {
    if parts == [] then [] else Flatten(parts[..|parts| - 1]) + parts[|parts| - 1]
  }

  lemma FlattenNext<T>(parts: seq<seq<T>>, i: nat)
    requires i < |parts|
    ensures Flatten(parts[..i + 1]) == Flatten(parts[..i]) + parts[i]
  {
    assert parts[..i + 1][..i] == parts[..i];
  }

  lemma TriedSplit(before: seq<(Hold, bool)>, after: seq<(Hold, bool)>, start: nat)
    requires start <= |before| <= |after| && before <= after
    ensures Tried(after[start..]) == Tried(before[start..]) + Tried(after[|before|..])
    ensures AllOk(after[start..]) <==> AllOk(before[start..]) && AllOk(after[|before|..])
  {
    assert after[start..] == before[start..] + after[|before|..];
  }

  lemma TriedNothing(attempts: seq<(Hold, bool)>)
    ensures Tried(attempts[|attempts|..]) == [] == Flatten<Hold>([]) && AllOk(attempts[|attempts|..])
  {
  }

  /** What releasing each waiting transfer attempts, in order. */
  ghost function ToRelease(transfers: seq<PayloadTransfer>, states: seq<EntryState>): (r: seq<seq<Hold>>)
    requires |transfers| == |states|
    reads transfers
    ensures |r| == |transfers|
  {
    seq(|transfers|, i requires 0 <= i < |transfers| == |states| reads transfers =>
      if states[i] == Waiting && transfers[i].state == TransferPending then Reversed(transfers[i].holds) else [])
  }

  function HoldsOf(transfers: seq<PayloadTransfer>): set<Hold> {
    set i, h | 0 <= i < |transfers| && h in transfers[i].holds :: h
  }

  lemma HoldsOfNext(transfers: seq<PayloadTransfer>, i: nat)
    requires i < |transfers|
    ensures HoldsOf(transfers[..i + 1]) == HoldsOf(transfers[..i]) + Elements(transfers[i].holds)
  {
    var more, some := transfers[..i + 1], transfers[..i];
    forall h ensures h in HoldsOf(more) <==> h in HoldsOf(some) || h in transfers[i].holds {
      if h in HoldsOf(some) {
        var k :| 0 <= k < |some| && h in some[k].holds;
        assert more[k] == some[k];
      }
      if h in transfers[i].holds { assert more[i] == transfers[i]; }
      if h in HoldsOf(more) {
        var k :| 0 <= k < |more| && h in more[k].holds;
        if k < i { assert some[k] == more[k]; }
      }
    }
  }

  lemma HoldsOfNone(transfers: seq<PayloadTransfer>)
    ensures HoldsOf(transfers[..0]) == {}
  {
  }

  class TransitionPayloadLedger {
    const limits: LedgerLimits
    const epoch: string
    var transfers: seq<PayloadTransfer>
    var states: seq<EntryState>
    var physical: map<Key, Ref>
    var physicalBytes: nat
    var physicalItems: nat
    var heldItems: nat
    var logicalBytes: nat
    var adoptedCount: nat
    var state: LedgerState

    ghost predicate Valid() reads this {
      && |transfers| == |states|
      && forall i, j :: 0 <= i < j < |transfers| ==> transfers[i].id != transfers[j].id
    }

    ghost function Entries(): (r: seq<LedgerEntry>)
      reads this
      requires Valid()
    {
      seq(|transfers|, i requires 0 <= i < |transfers| && |transfers| == |states| reads this =>
        LedgerEntry(transfers[i].id, transfers[i].refs, states[i]))
    }

    ghost function Model(): Ledger
      reads this
      requires Valid()
    {
      Ledger(limits, epoch, Entries(), physical, physicalBytes, physicalItems, heldItems, logicalBytes, adoptedCount,
        state)
    }

    constructor (limits: LedgerLimits, epoch: string)
      ensures Valid() && Model() == NewLedger(limits, epoch)
    {
      this.limits := limits;
      this.epoch := epoch;
      transfers, states, physical := [], [], map[];
      physicalBytes, physicalItems, heldItems, logicalBytes, adoptedCount := 0, 0, 0, 0, 0;
      state := LedgerOpen;
    }

    method AdmitLogical(bytes: nat) returns (ok: bool)
      requires Valid()
      modifies `logicalBytes
      ensures ok <==> state == LedgerOpen && Fits(old(logicalBytes), bytes, limits.logicalBytes)
      ensures logicalBytes == old(logicalBytes) + if ok then bytes else 0
      ensures Valid() && ok == AdmitBytes(old(Model()), bytes).Some?
      ensures Model() == if ok then AdmitBytes(old(Model()), bytes).value else old(Model())
    {
      if state != LedgerOpen || logicalBytes + bytes > MAX_SAFE_INTEGER || logicalBytes + bytes > limits.logicalBytes {
        return false;
      }
      logicalBytes := logicalBytes + bytes;
      assert Entries() == old(Entries());
      return true;
    }

    /** The reference preflight: a loop over the transfer's references. */
    method StageAll(refs: seq<Ref>) returns (r: Option<Staged>)
      requires Valid()
      ensures r == StageRefs(Model(), refs, |refs|)
    {
      var staged: map<Key, Ref> := map[];
      var bytes: nat, items: nat := 0, 0;
      var i := 0;
      while i < |refs|
        invariant i <= |refs|
        invariant StageRefs(Model(), refs, i) == Some(Staged(staged, bytes, items))
      {
        var ref := refs[i];
        var k := ContentKey(ref);
        if ref.serverEpoch != epoch {
          StageRefsStuck(Model(), refs, i + 1, |refs|);
          return None;
        }
        if k in physical || k in staged {
          if (if k in physical then physical[k] else staged[k]) != ref {
            StageRefsStuck(Model(), refs, i + 1, |refs|);
            return None;
          }
        } else {
          if bytes + ref.byteLength > MAX_SAFE_INTEGER || items + 1 > MAX_SAFE_INTEGER {
            StageRefsStuck(Model(), refs, i + 1, |refs|);
            return None;
          }
          staged := staged[k := ref];
          bytes := bytes + ref.byteLength;
          items := items + 1;
        }
        i := i + 1;
      }
      return Some(Staged(staged, bytes, items));
    }

    lemma SeenIsHere(t: PayloadTransfer)
      requires Valid() && forall u :: u in transfers && u.id == t.id ==> u == t
      ensures t in transfers <==> Seen(Model(), t.id)
    {
      if t in transfers {
        var i :| 0 <= i < |transfers| && transfers[i] == t;
        assert Entries()[i].box == t.id;
      }
      if Seen(Model(), t.id) {
        var i :| 0 <= i < |Entries()| && Entries()[i].box == t.id;
        assert transfers[i].id == t.id;
      }
    }

    /** All or nothing; ids stand for object identity. */
    method AdmitOne(t: PayloadTransfer, bytes: nat) returns (ok: bool)
      requires Valid() && forall u :: u in transfers && u.id == t.id ==> u == t
      modifies this
      ensures Valid() && ok == AdmitTransfer(old(Model()), t.id, t.refs, bytes).Some?
      ensures Model() == if ok then AdmitTransfer(old(Model()), t.id, t.refs, bytes).value else old(Model())
      ensures ok <==> exists l' :: Admitted(old(Model()), l', t.id, t.refs, bytes)
      ensures ok ==> Admitted(old(Model()), Model(), t.id, t.refs, bytes)
      ensures transfers == if ok then old(transfers) + [t] else old(transfers)
    {
      hide StageRefs, Seen, Admitted;
      AdmitsWhenever(Model(), t.id, t.refs, bytes);
      SeenIsHere(t);
      if state != LedgerOpen || t in transfers { return false; }
      if logicalBytes + bytes > MAX_SAFE_INTEGER || logicalBytes + bytes > limits.logicalBytes { return false; }
      var r := StageAll(t.refs);
      if r.None? { return false; }
      var staged := r.value;
      if physicalBytes + staged.bytes > MAX_SAFE_INTEGER || physicalItems + staged.items > MAX_SAFE_INTEGER
         || heldItems + |t.refs| > MAX_SAFE_INTEGER { return false; }
      if physicalBytes + staged.bytes > limits.physicalBytes || physicalItems + staged.items > limits.physicalItems
         || heldItems + |t.refs| > limits.heldItems { return false; }
      assert forall i :: 0 <= i < |transfers| ==> Entries()[i].box == transfers[i].id;
      transfers, states := transfers + [t], states + [Waiting];
      physical := physical + staged.refs;
      physicalBytes := physicalBytes + staged.bytes;
      physicalItems := physicalItems + staged.items;
      heldItems := heldItems + |t.refs|;
      logicalBytes := logicalBytes + bytes;
      assert Entries() == old(Entries()) + [LedgerEntry(t.id, t.refs, Waiting)];
      return true;
    }

    /** One entry: the owner takes its transfer in, or everything is as before. */
    method RouteOne(owner: GenerationContentOwner, n: nat) returns (ok: bool)
      requires Valid() && n < |transfers| && transfers[n].Idle()
      modifies `states, `adoptedCount, owner, transfers[n]
      ensures Valid() && transfers[n].Idle()
      ensures states == if ok then old(states)[n := Routed] else old(states)
      ensures adoptedCount == old(adoptedCount) + if ok then 1 else 0
      ensures ok ==> old(transfers[n].state) == TransferPending && transfers[n].state == TransferAdopted
      ensures ok ==> owner.phase == old(owner.phase)
      ensures ok ==> owner.owned == old(owner.owned) + Elements(transfers[n].holds)
      ensures ok ==> owner.adopted == old(owner.adopted) + Elements(transfers[n].holds)
      ensures !ok ==> transfers[n].state == old(transfers[n].state) && owner.Model() == old(owner.Model())
      ensures !ok ==>
        || owner.phase != Active || transfers[n].state != TransferPending
        || !Adoptable(owner.Model(), transfers[n].refs, transfers[n].holds)
    {
      hide Adoptable, TryAdopt, OwnerModel.Gains, Elements;
      var t := transfers[n];
      ghost var before := owner.Model();
      ok := owner.AdoptTransfer(t);
      if ok {
        GainsHolds(before, owner.Model(), t.holds);
        states := states[n := Routed];
        adoptedCount := adoptedCount + 1;
      }
    }

    lemma GainsHolds(o: Owner, o': Owner, holds: seq<Hold>)
      requires Gains(o, o', holds)
      ensures o'.phase == o.phase
      ensures o'.owned == o.owned + Elements(holds) && o'.adopted == o.adopted + Elements(holds)
    {
    }

    /** Routes the entries in order; at the first refusal the rest, transfers included, is untouched. The owner
        then has the holds of the entries routed. */
    method DrainTo(owner: GenerationContentOwner) returns (ok: bool, n: nat)
      requires Valid() && state == LedgerOpen && (forall i :: 0 <= i < |states| ==> states[i] == Waiting)
      requires forall t :: t in transfers ==> t.Idle()
      modifies this, owner, transfers
      ensures Valid() && transfers == old(transfers) && n <= |transfers| && (ok <==> n == |transfers|)
      ensures state == if ok then Drained else DrainFailed
      ensures forall i :: 0 <= i < |transfers| ==> states[i] == if i < n then Routed else Waiting
      ensures forall i :: 0 <= i < n ==>
        old(transfers[i].state) == TransferPending && transfers[i].state == TransferAdopted
      ensures forall i :: n <= i < |transfers| ==> transfers[i].state == old(transfers[i].state)
      ensures !ok ==>
        || owner.phase != Active || transfers[n].state != TransferPending
        || !Adoptable(owner.Model(), transfers[n].refs, transfers[n].holds)
      ensures adoptedCount == old(adoptedCount) + n
      ensures owner.adopted == old(owner.adopted) + HoldsOf(transfers[..n])
      ensures owner.owned == old(owner.owned) + HoldsOf(transfers[..n])
    {
      hide HoldsOf, Adoptable, Elements;
      n := 0;
      HoldsOfNone(transfers);
      while n < |transfers|
        invariant n <= |transfers| == |states| && transfers == old(transfers) && state == LedgerOpen && Valid()
        invariant forall t :: t in transfers ==> t.Idle()
        invariant forall i :: 0 <= i < |transfers| ==> states[i] == if i < n then Routed else Waiting
        invariant forall i :: 0 <= i < n ==>
          old(transfers[i].state) == TransferPending && transfers[i].state == TransferAdopted
        invariant forall i :: n <= i < |transfers| ==> transfers[i].state == old(transfers[i].state)
        invariant adoptedCount == old(adoptedCount) + n
        invariant owner.adopted == old(owner.adopted) + HoldsOf(transfers[..n])
        invariant owner.owned == old(owner.owned) + HoldsOf(transfers[..n])
      {
        assert forall i :: 0 <= i < |transfers| && i != n ==> transfers[i] != transfers[n];
        HoldsOfNext(transfers, n);
        var adopted := RouteOne(owner, n);
        if !adopted {
          state := DrainFailed;
          return false, n;
        }
        n := n + 1;
      }
      state := Drained;
      ok := true;
    }

    /** Terminal cleanup: every waiting transfer is let go and each of its holds is attempted exactly once;
        routed entries are left alone. */
    method ReleaseRemaining(store: HoldReleaser) returns (ok: bool)
      requires Valid() && (state == LedgerOpen || state == DrainFailed)
      requires forall t :: t in transfers ==> t.Idle()
      modifies this, store, transfers
      ensures Valid() && transfers == old(transfers)
      ensures state == if ok then LedgerReleased else LedgerReleaseFailed
      ensures forall i :: 0 <= i < |transfers| ==>
        states[i] == if old(states[i]) == Waiting then LetGo else old(states[i])
      ensures forall i :: 0 <= i < |transfers| ==>
                transfers[i].state ==
                  if old(states[i]) == Waiting && old(transfers[i].state) == TransferPending then TransferReleased
                  else old(transfers[i].state)
      ensures |store.attempts| >= |old(store.attempts)| && old(store.attempts) <= store.attempts
      ensures Tried(store.attempts[|old(store.attempts)|..]) == Flatten(old(ToRelease(transfers, states)))
      ensures ok <==> AllOk(store.attempts[|old(store.attempts)|..])
    {
      hide Tried, AllOk, Flatten, Reversed;
      ghost var plan := ToRelease(transfers, states);
      state := LedgerReleasing;
      ok := true;
      ghost var start := |store.attempts|;
      var i := 0;
      TriedNothing(store.attempts);
      while i < |transfers|
        invariant 0 <= i <= |transfers| == |states| && transfers == old(transfers)
        invariant forall t :: t in transfers ==> t.Idle()
        invariant forall j :: 0 <= j < |transfers| ==>
          states[j] == if j < i && old(states[j]) == Waiting then LetGo else old(states[j])
        invariant forall j :: 0 <= j < |transfers| ==>
                    transfers[j].state ==
                      if j < i && old(states[j]) == Waiting && old(transfers[j].state) == TransferPending
                      then TransferReleased
                      else old(transfers[j].state)
        invariant start <= |store.attempts| && old(store.attempts) <= store.attempts
        invariant Tried(store.attempts[start..]) == Flatten(plan[..i])
        invariant ok <==> AllOk(store.attempts[start..])
      {
        ghost var before := store.attempts;
        FlattenNext(plan, i);
        assert forall j :: 0 <= j < |transfers| && j != i ==> transfers[j] != transfers[i];
        var released := ReleaseEntry(i, store);
        TriedSplit(before, store.attempts, start);
        ok := ok && released;
        i := i + 1;
      }
      assert plan[..|transfers|] == plan;
      assert old(store.attempts) <= store.attempts;
      state := if ok then LedgerReleased else LedgerReleaseFailed;
    }

    method ReleaseEntry(i: nat, store: HoldReleaser) returns (ok: bool)
      requires Valid() && i < |transfers| && transfers[i].Idle()
      modifies this, store, transfers[i]
      ensures Valid() && transfers == old(transfers) && state == old(state) && transfers[i].Idle()
      ensures states == if old(states[i]) == Waiting then old(states)[i := LetGo] else old(states)
      ensures var released := old(states[i]) == Waiting && old(transfers[i].state) == TransferPending;
              && transfers[i].state == (if released then TransferReleased else old(transfers[i].state))
              && |store.attempts| >= |old(store.attempts)| && old(store.attempts) <= store.attempts
              && Tried(store.attempts[|old(store.attempts)|..]) ==
                 (if released then Reversed(transfers[i].holds) else [])
      ensures ok <==> AllOk(store.attempts[|old(store.attempts)|..])
    {
      ok := true;
      if states[i] == Waiting {
        states := states[i := LetGo];
        ok := transfers[i].Release(store);
      }
    }
  }
}

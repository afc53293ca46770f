/** The supervisor's lease actor and crash handler as the object they are in the source: maps that methods
    reassign. Every method is proved against the functions the run theorems are about. */
module SupervisorObject {
  import opened Prelude
  import opened SessionLeases
  import WorkspaceReservations
  import RestartBudget

  datatype LeaseError = RevisionExhausted | RevisionStale | TakeoverNotAvailable | ReadOnly

  datatype Alias = Alias(next: Handle, expiresAt: int)

  /** The live aliases lead from `h` to `target` in `n` hops. */
  predicate Leads(aliases: map<Handle, Alias>, now: int, h: Handle, target: Handle, n: nat)
    decreases n
  {
    if n == 0 then h == target
    else h in aliases && aliases[h].expiresAt > now && Leads(aliases, now, aliases[h].next, target, n - 1)
  }

  lemma {:induction false} LeadsOn(aliases: map<Handle, Alias>, now: int, h: Handle, target: Handle, n: nat)
    requires Leads(aliases, now, h, target, n) && target in aliases && aliases[target].expiresAt > now
    ensures Leads(aliases, now, h, aliases[target].next, n + 1)
    decreases n
  {
    if n > 0 { LeadsOn(aliases, now, aliases[h].next, target, n - 1); }
  }

  /** The lease of that generation is held by the connection, with revisions left or without. */
  predicate Holds(leases: map<Handle, Lease>, h: Handle, generation: nat, c: Connection) {
    && h in leases && leases[h].generation == generation && !leases[h].terminal
    && leases[h].holder.Some? && leases[h].holder.value.connection == c
  }

  /** Nobody holds a lease of that generation, and one may still be given. */
  predicate Vacant(leases: map<Handle, Lease>, h: Handle, generation: nat) {
    h in leases && leases[h].generation == generation ==> !leases[h].terminal && leases[h].holder.None?
  }

  /** The revision the next commit goes on from. */
  function RevisionOf(leases: map<Handle, Lease>, h: Handle, generation: nat): nat {
    if h in leases && leases[h].generation == generation then leases[h].revision else 0
  }

  ghost predicate OnlyAt(before: map<Handle, Lease>, after: map<Handle, Lease>, changed: set<Handle>) {
    forall h :: h !in changed ==> (h in before <==> h in after) && (h in before ==> before[h] == after[h])
  }

  /** What the connection held is vacant one revision on, and everything else is as it was. */
  predicate Vacated(before: Lease, after: Lease, c: Connection) {
    if !before.terminal && before.holder.Some? && before.holder.value.connection == c then
      after == Lease(before.generation, before.revision + 1, None, false)
    else after == before
  }

  /** One runtime, as far as the lease actor looks at it. */
  function Alone(leases: map<Handle, Lease>, r: Runtime): State {
    State(leases, map[r.handle := 0], map[0 := r], Free, {}, {}, [])
  }

  /** All the leases after connection `c` is gone. */
  function Disconnected(leases: map<Handle, Lease>, c: Connection): map<Handle, Lease> {
    map h | h in leases :: if HeldBy(leases[h], c) then Committed(leases[h], None) else leases[h]
  }

  /** How many creations are counted for a workspace. */
  function Creating(r: WorkspaceReservations.Reservations, w: string): nat {
    if w in r.creations then r.creations[w] else 0
  }

  lemma VacatesOne(leases: map<Handle, Lease>, h: Handle, c: Connection)
    requires h in leases && (HeldBy(leases[h], c) ==> !Exhausted(leases[h]))
    ensures Vacated(leases[h], Disconnected(leases, c)[h], c) && !HeldBy(Disconnected(leases, c)[h], c)
  {
  }

  class SessionSupervisor {
    var leases: map<Handle, Lease>
    var aliases: map<Handle, Alias>
    var crashTimes: map<Handle, seq<int>>
    var reservations: WorkspaceReservations.Reservations
    const restartWindow: int
    const maxAutoRestarts: nat

    constructor (restartWindow: int, maxAutoRestarts: nat)
      ensures leases == map[] && aliases == map[] && crashTimes == map[]
      ensures reservations == WorkspaceReservations.Reservations({}, map[], map[])
      ensures this.restartWindow == restartWindow && this.maxAutoRestarts == maxAutoRestarts
    {
      leases, aliases, crashTimes := map[], map[], map[];
      reservations := WorkspaceReservations.Reservations({}, map[], map[]);
      this.restartWindow, this.maxAutoRestarts := restartWindow, maxAutoRestarts;
    }

    method LeaseStateFor(h: Handle, generation: nat) returns (l: Lease)
      modifies `leases
      ensures l == LeaseFor(old(leases), h, generation) && leases == old(leases)[h := l]
    {
      if h in leases && leases[h].generation == generation {
        l := leases[h];
        return;
      }
      l := Lease(generation, 0, None, false);
      leases := leases[h := l];
    }

    method CommitLeaseTransition(h: Handle, l: Lease, holder: Option<LeaseHolder>)
      returns (r: Result<Commit, LeaseError>)
      requires h in leases && leases[h] == l
      modifies `leases
      ensures leases == old(leases)[h := Committed(l, holder)]
      ensures r == if Exhausted(l) then Err(RevisionExhausted) else Ok(CommitOf(h, Committed(l, holder)))
    {
      if l.terminal { return Err(RevisionExhausted); }
      if l.revision >= LAST_REVISION {
        leases := leases[h := Lease(l.generation, l.revision, None, true)];
        return Err(RevisionExhausted);
      }
      var next := Lease(l.generation, l.revision + 1, holder, false);
      leases := leases[h := next];
      r := Ok(Commit(h, l.generation, next.revision, holder));
    }

    /** A claim by the connection that holds the lease already, or of a lease somebody else holds, reports
        the lease and changes nothing. */
    method ClaimLease(r: Runtime, c: Connection, t: Token) returns (transition: Result<Option<Commit>, LeaseError>)
      modifies `leases
      ensures OnlyAt(old(leases), leases, {r.handle})
      ensures r.handle in leases && leases[r.handle].generation == r.generation
      ensures Vacant(old(leases), r.handle, r.generation) ==>
        var revision := RevisionOf(old(leases), r.handle, r.generation);
        if revision < LAST_REVISION then
          && leases[r.handle] == Lease(r.generation, revision + 1, Some(LeaseHolder(c, t)), false)
          && transition == Ok(Some(Commit(r.handle, r.generation, revision + 1, Some(LeaseHolder(c, t)))))
        else leases[r.handle] == Lease(r.generation, revision, None, true) && transition == Err(RevisionExhausted)
      ensures !Vacant(old(leases), r.handle, r.generation) ==>
        leases == old(leases) && (transition == if leases[r.handle].terminal then Err(RevisionExhausted) else Ok(None))
      ensures leases == Claim(Alone(old(leases), r), 0, c, t).leases
      ensures var l := LeaseFor(old(leases), r.handle, r.generation);
        transition ==
          if l.terminal then Err(RevisionExhausted)
          else if l.holder.Some? then Ok(None)
          else if Exhausted(l) then Err(RevisionExhausted)
          else Ok(Some(Commit(r.handle, r.generation, l.revision + 1, Some(LeaseHolder(c, t)))))
    {
      var l := LeaseStateFor(r.handle, r.generation);
      if l.terminal { return Err(RevisionExhausted); }
      if l.holder.Some? { return Ok(None); }
      var committed := CommitLeaseTransition(r.handle, l, Some(LeaseHolder(c, t)));
      match committed
      case Ok(commit) => transition := Ok(Some(commit));
      case Err(e) => transition := Err(e);
    }

    /** `runtime` is what is tracked under `h`; `exact` asks for the token as well. */
    method ReleaseLease(h: Handle, runtime: Option<Runtime>, c: Connection, exact: Option<Token>)
      returns (released: Result<bool, LeaseError>)
      requires runtime.Some? ==> runtime.value.handle == h
      modifies `leases
      ensures OnlyAt(old(leases), leases, {h}) && old(leases).Keys <= leases.Keys
      ensures runtime.None? && h !in old(leases) ==> released == Ok(false) && leases == old(leases)
      ensures runtime.Some? || h in old(leases) ==>
        var generation := if runtime.Some? then runtime.value.generation else old(leases)[h].generation;
        if Holds(old(leases), h, generation, c)
           && (exact.Some? ==> old(leases)[h].holder.value.token == exact.value) then
          if old(leases)[h].revision < LAST_REVISION then
            && leases[h] == Lease(generation, old(leases)[h].revision + 1, None, false) && released == Ok(true)
          else leases[h] == Lease(generation, old(leases)[h].revision, None, true) && released == Err(RevisionExhausted)
        else
          && released == Ok(false)
          && (h in old(leases) && old(leases)[h].generation == generation ==> leases == old(leases))
      ensures var s := State(old(leases), if runtime.Some? then map[h := 0] else map[],
                             if runtime.Some? then map[0 := runtime.value] else map[], Free, {}, {}, []);
        && leases == Release(s, h, c, exact).leases
        && (released == Ok(true) <==> |Release(s, h, c, exact).log| == 1)
    {
      if runtime.None? && h !in leases { return Ok(false); }
      var generation := if runtime.Some? then runtime.value.generation else leases[h].generation;
      var l := LeaseStateFor(h, generation);
      if l.terminal || l.holder.None? || l.holder.value.connection != c ||
        (exact.Some? && l.holder.value.token != exact.value) {
        return Ok(false);
      }
      var committed := CommitLeaseTransition(h, l, None);
      released := if committed.Ok? then Ok(true) else Err(committed.error);
    }

    method TakeOverLease(r: Runtime, expectedRevision: nat, c: Connection, t: Token)
      returns (result: Result<Commit, LeaseError>)
      modifies `leases
      ensures OnlyAt(old(leases), leases, {r.handle}) && r.handle in leases
      ensures var accepted := r.handle in old(leases) && old(leases)[r.handle].generation == r.generation
          && !old(leases)[r.handle].terminal && old(leases)[r.handle].revision == expectedRevision
          && old(leases)[r.handle].holder.Some? && old(leases)[r.handle].holder.value.connection != c;
        if accepted && expectedRevision < LAST_REVISION then
          && leases[r.handle] == Lease(r.generation, expectedRevision + 1, Some(LeaseHolder(c, t)), false)
          && result == Ok(Commit(r.handle, r.generation, expectedRevision + 1, Some(LeaseHolder(c, t))))
        else if accepted then
          leases[r.handle] == Lease(r.generation, expectedRevision, None, true) && result == Err(RevisionExhausted)
        else
          && result.Err?
          && (r.handle in old(leases) && old(leases)[r.handle].generation == r.generation ==> leases == old(leases))
      ensures TakeoverAccepted(Alone(old(leases), r), r.handle, r.generation, expectedRevision, c) ==>
        && leases == Takeover(Alone(old(leases), r), r.handle, r.generation, expectedRevision, c, t).leases
        && (expectedRevision < LAST_REVISION ==>
              result == Ok(Commit(r.handle, r.generation, expectedRevision + 1, Some(LeaseHolder(c, t)))))
        && (expectedRevision >= LAST_REVISION ==> result == Err(RevisionExhausted))
      ensures !TakeoverAccepted(Alone(old(leases), r), r.handle, r.generation, expectedRevision, c) ==>
        result.Err? && leases == old(leases)[r.handle := LeaseFor(old(leases), r.handle, r.generation)]
    {
      var l := LeaseStateFor(r.handle, r.generation);
      if l.terminal { return Err(TakeoverNotAvailable); }
      if l.revision != expectedRevision { return Err(RevisionStale); }
      if l.holder.None? || l.holder.value.connection == c { return Err(TakeoverNotAvailable); }
      result := CommitLeaseTransition(r.handle, l, Some(LeaseHolder(c, t)));
    }

    method RekeyLeases(from: Handle, r: Runtime) returns (result: Result<Lease, LeaseError>)
      modifies `leases
      ensures OnlyAt(old(leases), leases, {from, r.handle})
      ensures r.handle in leases && (from != r.handle ==> from !in leases)
      ensures leases[r.handle] ==
        if from !in old(leases) || old(leases)[from].generation != r.generation then Lease(r.generation, 0, None, false)
        else if old(leases)[from].holder.None? || old(leases)[from].terminal then old(leases)[from]
        else if old(leases)[from].revision >= LAST_REVISION then
          Lease(r.generation, old(leases)[from].revision, None, true)
        else Lease(r.generation, old(leases)[from].revision + 1, old(leases)[from].holder, false)
      ensures leases == RekeyLease(Alone(old(leases), r), from, 0).leases
      ensures result.Ok? ==> r.handle in leases && result.value == leases[r.handle]
    {
      var previous := if from in leases then Some(leases[from]) else None;
      leases := leases - {from};
      leases := leases - {r.handle};
      assert leases == old(leases) - {from, r.handle};
      if previous.None? || previous.value.generation != r.generation {
        var next := Lease(r.generation, 0, None, false);
        leases := leases[r.handle := next];
        return Ok(next);
      }
      leases := leases[r.handle := previous.value];
      if previous.value.holder.None? { return Ok(previous.value); }
      var committed := CommitLeaseTransition(r.handle, previous.value, previous.value.holder);
      result := if committed.Ok? then Ok(leases[r.handle]) else Err(committed.error);
    }

    /** Releases the lease if the connection holds it. */
    method ReleaseOne(h: Handle, c: Connection) returns (held: Result<bool, LeaseError>)
      requires h in leases
      modifies `leases
      ensures leases == old(leases)[h := Disconnected(old(leases), c)[h]]
      ensures leases == Disconnect(State(old(leases), map[], map[], Free, {}, {}, []), h, c).leases
      ensures held ==
        if !HeldBy(old(leases)[h], c) then Ok(false)
        else if Exhausted(old(leases)[h]) then Err(RevisionExhausted) else Ok(true)
    {
      var l := leases[h];
      if l.terminal || l.holder.None? || l.holder.value.connection != c { return Ok(false); }
      var committed := CommitLeaseTransition(h, l, None);
      held := if committed.Ok? then Ok(true) else Err(committed.error);
    }

    /** One round over all leases. It stops at a lease whose revisions have run out, which it leaves terminal. */
    method ReleaseConnection(c: Connection) returns (released: Result<set<Handle>, LeaseError>)
      modifies `leases
      ensures released.Ok? ==>
        && leases == Disconnected(old(leases), c)
        && released.value == (set h | h in old(leases) && HeldBy(old(leases)[h], c))
        && (forall h :: h in leases ==> !HeldBy(leases[h], c))
        && forall h :: h in leases ==> Vacated(old(leases)[h], leases[h], c)
      ensures released.Err? ==> exists h :: h in old(leases) && HeldBy(old(leases)[h], c) && Exhausted(old(leases)[h])
      ensures leases.Keys == old(leases).Keys
      ensures forall h :: h in leases ==> leases[h] == old(leases)[h] || leases[h] == Disconnected(old(leases), c)[h]
    {
      hide Vacated, Committed, HeldBy, Exhausted, Disconnect, Install, Claim, Takeover, RekeyLease;
      var rest := leases.Keys;
      var done: set<Handle> := {};
      while rest != {}
        invariant rest <= leases.Keys && leases.Keys == old(leases).Keys
        invariant forall h :: h in leases ==>
          leases[h] == if h in rest then old(leases)[h] else Disconnected(old(leases), c)[h]
        invariant done == set h | h in old(leases) && h !in rest && HeldBy(old(leases)[h], c)
        invariant forall h :: h in done ==> !Exhausted(old(leases)[h])
        decreases |rest|
      {
        var h :| h in rest;
        rest := rest - {h};
        var one := ReleaseOne(h, c);
        match one {
          case Err(e) => return Err(e);
          case Ok(held) => if held { done := done + {h}; }
        }
      }
      forall h | h in leases ensures Vacated(old(leases)[h], leases[h], c) && !HeldBy(leases[h], c) {
        VacatesOne(old(leases), h, c);
      }
      released := Ok(done);
    }

    /** `assertLease`. */
    method AssertLease(r: Runtime, c: Connection, t: Token) returns (ok: bool)
      ensures ok <==> Holds(leases, r.handle, r.generation, c) && leases[r.handle].holder.value.token == t
      ensures ok == Admitted(Alone(leases, r), 0, c, t)
    {
      if r.handle !in leases { return false; }
      var l := leases[r.handle];
      ok := !l.terminal && l.generation == r.generation && l.holder.Some? && l.holder.value.connection == c &&
        l.holder.value.token == t;
    }

    /** Follows live aliases until there is none, or one handle comes up twice; an expired alias that ends
        the walk is dropped. */
    method ResolveAlias(h: Handle, now: int) returns (target: Handle, ghost hops: nat)
      modifies `aliases
      ensures Leads(old(aliases), now, h, target, hops)
      ensures target !in aliases || exists n: nat :: n < hops && Leads(old(aliases), now, h, target, n)
      ensures aliases == old(aliases) ||
        (target in old(aliases) && old(aliases)[target].expiresAt <= now && aliases == old(aliases) - {target})
    {
      target, hops := h, 0;
      var seen: set<Handle> := {};
      ghost var trail: seq<Handle> := [];
      while target !in seen
        invariant aliases == old(aliases)
        invariant seen <= aliases.Keys
        invariant Leads(aliases, now, h, target, hops)
        invariant |trail| == hops && forall k :: k in seen <==> k in trail
        invariant forall n :: 0 <= n < hops ==> Leads(aliases, now, h, trail[n], n)
        decreases |aliases.Keys - seen|, if target in seen then 0 else 1
      {
        if target !in aliases { return; }
        if aliases[target].expiresAt <= now {
          aliases := aliases - {target};
          return;
        }
        assert aliases.Keys - (seen + {target}) < aliases.Keys - seen;
        SmallerSet(aliases.Keys - (seen + {target}), aliases.Keys - seen);
        LeadsOn(aliases, now, h, target, hops);
        trail := trail + [target];
        seen := seen + {target};
        target, hops := aliases[target].next, hops + 1;
      }
    }

    /** Remembers the crash and tells whether an automatic restart is scheduled. */
    method HandleCrash(h: Handle, now: int) returns (restart: bool)
      modifies `crashTimes
      ensures var before := if h in old(crashTimes) then old(crashTimes)[h] else [];
        var recent := RestartBudget.Recent(before, now, restartWindow) + [now];
        crashTimes == old(crashTimes)[h := recent] && (restart <==> |recent| <= maxAutoRestarts)
    {
      var times := if h in crashTimes then crashTimes[h] else [];
      var recent: seq<int> := [];
      for i := 0 to |times|
        invariant crashTimes == old(crashTimes)
        invariant recent == RestartBudget.Recent(times[..i], now, restartWindow)
      {
        RestartBudget.RecentConcat(times[..i], [times[i]], now, restartWindow);
        assert times[..i + 1] == times[..i] + [times[i]];
        assert [times[i]][1..] == [];
        if now - times[i] < restartWindow { recent := recent + [times[i]]; }
      }
      assert times[..|times|] == times;
      recent := recent + [now];
      assert times == if h in old(crashTimes) then old(crashTimes)[h] else [];
      crashTimes := crashTimes[h := recent];
      restart := |recent| <= maxAutoRestarts;
    }

    method ReserveWorkspaceTransition(w: string,
        activating: bool) returns (refusal: Option<WorkspaceReservations.Refusal>)
      modifies `reservations
      ensures refusal == Some(WorkspaceReservations.WorkspaceSessionDeleting) <==>
        exists h :: h in old(reservations).deletions && old(reservations).deletions[h] == w
      ensures refusal.None? <==>
        && (forall h :: h in old(reservations).deletions ==> old(reservations).deletions[h] != w)
        && w !in old(reservations).transitions && Creating(old(reservations), w) == 0 && !activating
      ensures reservations.deletions == old(reservations).deletions
      ensures reservations.creations == old(reservations).creations
      ensures reservations.transitions == old(reservations).transitions + if refusal.None? then {w} else {}
      ensures match WorkspaceReservations.ReserveTransition(old(reservations), w, activating)
        case Ok(r) => refusal.None? && reservations == r
        case Err(e) => refusal == Some(e) && reservations == old(reservations)
    {
      var deleting := WorkspaceHasDeletion(w);
      if deleting { return Some(WorkspaceReservations.WorkspaceSessionDeleting); }
      if w in reservations.transitions { return Some(WorkspaceReservations.WorkspaceIdentityTransitioning); }
      if w in reservations.creations && reservations.creations[w] > 0 {
        return Some(WorkspaceReservations.WorkspaceCreationInProgress);
      }
      if activating { return Some(WorkspaceReservations.WorkspaceActivationInProgress); }
      reservations := reservations.(transitions := reservations.transitions + {w});
      refusal := None;
    }

    method ReserveWorkspaceCreation(w: string) returns (refusal: Option<WorkspaceReservations.Refusal>)
      modifies `reservations
      ensures refusal == Some(WorkspaceReservations.WorkspaceSessionDeleting) <==>
        exists h :: h in old(reservations).deletions && old(reservations).deletions[h] == w
      ensures refusal.None? <==>
        && (forall h :: h in old(reservations).deletions ==> old(reservations).deletions[h] != w)
        && w !in old(reservations).transitions
      ensures reservations.deletions == old(reservations).deletions
      ensures reservations.transitions == old(reservations).transitions
      ensures reservations.creations ==
        if refusal.None? then old(reservations).creations[w := Creating(old(reservations), w) + 1]
        else old(reservations).creations
      ensures match WorkspaceReservations.ReserveCreation(old(reservations), w)
        case Ok(r) => refusal.None? && reservations == r
        case Err(e) => refusal == Some(e) && reservations == old(reservations)
    {
      var deleting := WorkspaceHasDeletion(w);
      if deleting { return Some(WorkspaceReservations.WorkspaceSessionDeleting); }
      if w in reservations.transitions { return Some(WorkspaceReservations.WorkspaceIdentityTransitioning); }
      var count := if w in reservations.creations then reservations.creations[w] else 0;
      reservations := reservations.(creations := reservations.creations[w := count + 1]);
      refusal := None;
    }

    /** Looks through all deletion reservations for one of the workspace. */
    method WorkspaceHasDeletion(w: string) returns (found: bool)
      ensures found == WorkspaceReservations.HasDeletion(reservations, w)
    {
      var rest := reservations.deletions.Keys;
      while rest != {}
        invariant rest <= reservations.deletions.Keys
        invariant forall h :: h in reservations.deletions && h !in rest ==> reservations.deletions[h] != w
        decreases |rest|
      {
        var h :| h in rest;
        if reservations.deletions[h] == w { return true; }
        rest := rest - {h};
      }
      found := false;
    }
  }

  lemma SmallerSet<T>(a: set<T>, b: set<T>)
    requires a < b
    ensures |a| < |b|
  {
    assert b == a + (b - a);
    assert |b| == |a| + |b - a|;
  }
}

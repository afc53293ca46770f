/** Lease revisions over all disciplined runs: strictly increasing within a (handle, generation) domain, so
    that naming a revision is a compare-and-swap. Two runs show what goes wrong without the discipline. */
module SessionLeaseRevisions {
  import opened Prelude
  import opened SessionLeases

  /** The domain whose lease the supervisor would work on for handle `h` right now. */
  predicate Current(s: State, d: Domain) {
    || (d.handle in s.tracked && s.tracked[d.handle] in s.runtimes &&
      s.runtimes[s.tracked[d.handle]] == Runtime(d.handle, d.generation))
    || (s.pool.Claiming? && s.pool.id in s.runtimes && s.runtimes[s.pool.id] == Runtime(d.handle, d.generation))
  }

  /** The lease entry of domain `d` is in the map. */
  predicate Present(s: State, d: Domain) {
    d.handle in s.leases && s.leases[d.handle].generation == d.generation
  }

  predicate Owned(s: State, d: Domain) { Present(s, d) && s.leases[d.handle].holder.Some? }

  function DomainOfCommit(c: Commit): Domain { Domain(c.handle, c.generation) }

  /** A logged commit is either behind the present lease, or its domain can never commit again. */
  predicate Behind(s: State, c: Commit) {
    var d := DomainOfCommit(c);
    || (Present(s, d) && c.revision <= s.leases[d.handle].revision)
    || (!Current(s, d) && !Owned(s, d))
  }

  ghost predicate Logged(s: State, d: Domain) {
    exists k :: 0 <= k < |s.log| && DomainOfCommit(s.log[k]) == d
  }

  ghost predicate Climbing(log: seq<Commit>) {
    forall j, k :: 0 <= j < k < |log| && DomainOfCommit(log[j]) == DomainOfCommit(log[k]) ==>
      log[j].revision < log[k].revision
  }

  ghost predicate Places(s: State) {
    && (forall h :: h in s.tracked ==> s.tracked[h] in s.runtimes && s.runtimes[s.tracked[h]].handle == h)
    && (forall id :: id in s.runtimes ==> Domain(s.runtimes[id].handle, s.runtimes[id].generation) in s.spent)
    && (forall h :: h in s.leases ==> Domain(h, s.leases[h].generation) in s.spent)
    && (forall k :: 0 <= k < |s.log| ==> DomainOfCommit(s.log[k]) in s.spent)
  }

  /** What holds while somebody is inside the pool lock. */
  ghost predicate PoolInv(s: State) {
    match s.pool
    case Free => true
    case Claiming(id) =>
      id in s.runtimes && (s.runtimes[id].handle in s.tracked ==> s.tracked[s.runtimes[id].handle] == id)
    case Forgetting(h) => h !in s.tracked
    case Rekeying(from, id) =>
      && id in s.runtimes
      && (from != s.runtimes[id].handle ==> from !in s.tracked)
      && (s.runtimes[id].handle in s.tracked ==> s.tracked[s.runtimes[id].handle] == id)
      && var d := Domain(s.runtimes[id].handle, s.runtimes[id].generation);
         !Logged(s, d) && !Owned(s, d)
  }

  ghost predicate Inv(s: State) {
    && Places(s)
    && PoolInv(s)
    && (forall k :: 0 <= k < |s.log| ==> Behind(s, s.log[k]))
    && Climbing(s.log)
  }

  // ---------------------------------------------------------------- one commit

  /** No commit of a domain that may still commit lies ahead of its lease. */
  lemma NoneAhead(s: State, d: Domain)
    requires Inv(s) && (Current(s, d) || Owned(s, d))
    ensures forall k :: 0 <= k < |s.log| && DomainOfCommit(s.log[k]) == d ==>
      s.log[k].revision <= LeaseFor(s.leases, d.handle, d.generation).revision
  {
    hide Max;
    forall k | 0 <= k < |s.log| && DomainOfCommit(s.log[k]) == d
      ensures s.log[k].revision <= LeaseFor(s.leases, d.handle, d.generation).revision
    {
      assert Behind(s, s.log[k]);
    }
  }

  // ---------------------------------------------------------------- steps that move runtimes

  /** Runtimes move but leases and log stay: only fresh domains may become current. */
  ghost predicate OnlyRuntimesMove(s: State, s': State) {
    && s'.leases == s.leases && s'.log == s.log && s.spent <= s'.spent
    && forall d :: Current(s', d) && !Current(s, d) ==> d !in s.spent
  }

  lemma RuntimeMovesKeepLog(s: State, s': State)
    requires Inv(s) && OnlyRuntimesMove(s, s')
    ensures forall k :: 0 <= k < |s'.log| ==> Behind(s', s'.log[k])
  {
    hide Max;
    forall k | 0 <= k < |s'.log| ensures Behind(s', s'.log[k]) {
      var d := DomainOfCommit(s.log[k]);
      assert Behind(s, s.log[k]);
      assert d in s.spent;
    }
  }

  predicate MovesRuntimes(a: Action) {
    a.Track? || a.Replace? || a.StartNext? || a.Untrack? || a.BeginForget? || a.BeginClaim? || a.BeginRekey?
  }

  lemma RuntimeMoves(s: State, a: Action)
    requires Inv(s) && Can(s, a) && Disciplined(s, a) && MovesRuntimes(a)
    ensures OnlyRuntimesMove(s, Do(s, a))
  {
    hide Max;
  }

  lemma RuntimeMovesKeepPlaces(s: State, a: Action)
    requires Inv(s) && Can(s, a) && Disciplined(s, a) && MovesRuntimes(a)
    ensures Places(Do(s, a))
  {
    hide Max;
  }

  lemma UnspentIsUnused(s: State, d: Domain)
    requires Places(s) && d !in s.spent
    ensures !Logged(s, d) && !Owned(s, d)
  {
  }

  lemma RuntimeMovesKeepPool(s: State, a: Action)
    requires Inv(s) && Can(s, a) && Disciplined(s, a) && MovesRuntimes(a)
    ensures PoolInv(Do(s, a))
  {
    hide Logged, Owned, Current, Behind, Climbing;
    var s' := Do(s, a);
    if s'.pool.Rekeying? {
      var d := Domain(s'.runtimes[s'.pool.id].handle, s'.runtimes[s'.pool.id].generation);
      SameLog(s, s', d);
      if d !in s.spent { UnspentIsUnused(s, d); }
    }
  }

  lemma SameLog(s: State, s': State, d: Domain)
    requires s'.log == s.log && s'.leases == s.leases
    ensures Logged(s', d) == Logged(s, d) && Owned(s', d) == Owned(s, d)
  {
  }

  lemma RuntimeMovesKeep(s: State, a: Action)
    requires Inv(s) && Can(s, a) && Disciplined(s, a) && MovesRuntimes(a)
    ensures Inv(Do(s, a))
  {
    hide Do, Can, Disciplined, Places, PoolInv, Behind, Current;
    RuntimeMoves(s, a);
    RuntimeMovesKeepLog(s, Do(s, a));
    RuntimeMovesKeepPlaces(s, a);
    RuntimeMovesKeepPool(s, a);
  }

  // ---------------------------------------------------------------- steps of the lease actor

  /** The lease at `h` becomes `l'`, an heir of what `LeaseFor` found for generation `g`: the same lease, or
      its committed successor, which is then logged. Runtimes stay where they are. */
  ghost predicate LeaseMoves(s: State, s': State, h: Handle, g: nat) {
    var l := LeaseFor(s.leases, h, g);
    && s'.tracked == s.tracked && s'.runtimes == s.runtimes && s'.spent == s.spent
    && h in s'.leases && s'.leases == s.leases[h := s'.leases[h]]
    && s'.leases[h].generation == g && l.revision <= s'.leases[h].revision
    && (|| (s'.log == s.log && (s'.leases[h].holder.Some? ==> s'.leases[h].holder == l.holder))
        || (s'.log == s.log + [CommitOf(h, s'.leases[h])] && l.revision < s'.leases[h].revision))
  }

  /** Domain (h, g) may commit, and no other domain of `h` is current. */
  ghost predicate MayMove(s: State, h: Handle, g: nat) {
    && (Current(s, Domain(h, g)) || Present(s, Domain(h, g)))
    && (forall g' :: g' != g && Present(s, Domain(h, g')) ==> !Current(s, Domain(h, g')))
    && Domain(h, g) in s.spent
  }

  lemma LeaseMovesKeepLog(s: State, s': State, h: Handle, g: nat)
    requires Inv(s) && LeaseMoves(s, s', h, g) && MayMove(s, h, g)
    requires s'.pool == s.pool || s'.pool == Free
    requires s'.log != s.log ==> Current(s, Domain(h, g)) || Owned(s, Domain(h, g))
    ensures Places(s')
    ensures Climbing(s'.log)
    ensures forall k :: 0 <= k < |s'.log| ==> Behind(s', s'.log[k])
  {
    hide Max;
    var d := Domain(h, g);
    if s'.log != s.log { NoneAhead(s, d); }
    forall k | 0 <= k < |s'.log| ensures Behind(s', s'.log[k]) {
      if k < |s.log| {
        var c := s.log[k];
        assert s'.log[k] == c && Behind(s, c);
        var e := DomainOfCommit(c);
        assert Current(s', e) ==> Current(s, e);
        if e == d {
          if Current(s, d) || Owned(s, d) { NoneAhead(s, d); }
        } else if e.handle == h {
          assert !Present(s', e);
          if Present(s, e) { assert !Current(s, e); }
        }
      }
    }
  }

  /** Where such a step works, and that a commit needs a current domain; outside the pool lock, an owned one. */
  ghost predicate MovesAt(s: State, a: Action, h: Handle, g: nat)
    requires Can(s, a)
  {
    var s' := Do(s, a);
    && LeaseMoves(s, s', h, g) && MayMove(s, h, g)
    && (s'.pool == s.pool || (s.pool.Claiming? && s'.pool == Free))
    && (s'.log != s.log ==> Owned(s, Domain(h, g)) || (Current(s, Domain(h, g)) && (s.pool.Free? || s.pool.Claiming?)))
    && (s.pool.Rekeying? ==> s'.pool == s.pool)
  }

  lemma ReconcileMoves(s: State, a: Action)
    requires Inv(s) && Can(s, a) && Disciplined(s, a) && a.Reconcile?
    ensures MovesAt(s, a, s.runtimes[a.id].handle, s.runtimes[a.id].generation)
  {
    hide Behind, Climbing, Logged;
  }

  lemma EndClaimMoves(s: State, a: Action)
    requires Inv(s) && Can(s, a) && a.EndClaim?
    ensures MovesAt(s, a, s.runtimes[s.pool.id].handle, s.runtimes[s.pool.id].generation)
  {
    hide Behind, Climbing, Logged;
  }

  lemma ReleaseMoves(s: State, a: Action)
    requires Inv(s) && Can(s, a) && a.ReleaseBy? && ReleaseGeneration(s, a.h).Some?
    ensures MovesAt(s, a, a.h, ReleaseGeneration(s, a.h).value)
  {
    hide Behind, Climbing, Logged;
  }

  lemma DisconnectMoves(s: State, a: Action)
    requires Inv(s) && Can(s, a) && a.DisconnectOne?
    ensures MovesAt(s, a, a.h, s.leases[a.h].generation)
  {
    hide Behind, Climbing, Logged;
  }

  lemma TakeoverMoves(s: State, a: Action)
    requires Inv(s) && Can(s, a) && a.TakeOver?
    ensures MovesAt(s, a, a.h, a.generation)
  {
    hide Behind, Climbing, Logged;
  }

  lemma MovesKeepPool(s: State, s': State, h: Handle, g: nat)
    requires PoolInv(s) && LeaseMoves(s, s', h, g)
    requires s'.pool == s.pool || s'.pool == Free
    requires s'.log != s.log ==> Owned(s, Domain(h, g)) || !s.pool.Rekeying?
    ensures PoolInv(s')
  {
    hide Max;
  }

  lemma LeaseMovesKeep(s: State, a: Action, h: Handle, g: nat)
    requires Inv(s) && Can(s, a) && MovesAt(s, a, h, g)
    ensures Inv(Do(s, a))
  {
    hide Do, Can, Places, PoolInv, Behind, Current, Owned, MayMove, LeaseMoves, Climbing;
    LeaseMovesKeepLog(s, Do(s, a), h, g);
    MovesKeepPool(s, Do(s, a), h, g);
  }

  lemma DropLeaseKeeps(s: State, a: Action)
    requires Inv(s) && Can(s, a) && a.DropLease?
    ensures Inv(Do(s, a))
  {
    hide Max;
    var s' := Do(s, a);
    forall k | 0 <= k < |s'.log| ensures Behind(s', s'.log[k]) { assert Behind(s, s.log[k]); }
  }

  lemma EndRekeyPlaces(s: State, a: Action)
    requires Places(s) && PoolInv(s) && Can(s, a) && a.EndRekey?
    ensures Places(Do(s, a)) && PoolInv(Do(s, a))
  {
    hide Logged, Owned;
  }

  lemma EndRekeyBehind(s: State, a: Action, k: nat)
    requires Places(s) && PoolInv(s) && Can(s, a) && a.EndRekey? && k < |s.log| && Behind(s, s.log[k])
    ensures k < |Do(s, a).log| && Do(s, a).log[k] == s.log[k] && Behind(Do(s, a), s.log[k])
  {
    hide Logged;
    var r := s.runtimes[s.pool.id];
    OtherDomain(s, Domain(r.handle, r.generation), k);
  }

  lemma OtherDomain(s: State, d: Domain, k: nat)
    requires k < |s.log| && !Logged(s, d)
    ensures DomainOfCommit(s.log[k]) != d
  {
  }

  /** The commit of a rekey, if any, is the first one of its domain. */
  lemma EndRekeyLast(s: State, a: Action)
    requires Can(s, a) && a.EndRekey?
    ensures var s' := Do(s, a); var r := s.runtimes[s.pool.id];
      || s'.log == s.log
      || (|s'.log| == |s.log| + 1 && s'.log[..|s.log|] == s.log
          && DomainOfCommit(s'.log[|s.log|]) == Domain(r.handle, r.generation) && Behind(s', s'.log[|s.log|]))
  {
    hide Max;
  }

  lemma EndRekeyKeeps(s: State, a: Action)
    requires Inv(s) && Can(s, a) && a.EndRekey?
    ensures Inv(Do(s, a))
  {
    hide Do, Places, Behind;
    var s' := Do(s, a);
    var r := s.runtimes[s.pool.id];
    EndRekeyPlaces(s, a);
    EndRekeyLast(s, a);
    assert !Logged(s, Domain(r.handle, r.generation));
    forall k | 0 <= k < |s'.log| ensures Behind(s', s'.log[k]) && (k < |s.log| ==> s'.log[k] == s.log[k]) {
      if k < |s.log| {
        EndRekeyBehind(s, a, k);
        OtherDomain(s, Domain(r.handle, r.generation), k);
      }
    }
    forall j, k | 0 <= j < k < |s'.log| && DomainOfCommit(s'.log[j]) == DomainOfCommit(s'.log[k])
      ensures s'.log[j].revision < s'.log[k].revision
    {
      OtherDomain(s, Domain(r.handle, r.generation), j);
    }
  }

  lemma StepKeeps(s: State, a: Action)
    requires Inv(s) && Can(s, a) && Disciplined(s, a)
    ensures Inv(Do(s, a))
  {
    hide Inv, MovesAt, Current, Claim, Takeover, Disconnect, RekeyLease;
    match a
    case Reconcile(id) =>
      ReconcileMoves(s, a);
      LeaseMovesKeep(s, a, s.runtimes[id].handle, s.runtimes[id].generation);
    case EndClaim(_, _) =>
      EndClaimMoves(s, a);
      LeaseMovesKeep(s, a, s.runtimes[s.pool.id].handle, s.runtimes[s.pool.id].generation);
    case ReleaseBy(h, c, t) =>
      if ReleaseGeneration(s, h).Some? {
        ReleaseMoves(s, a);
        LeaseMovesKeep(s, a, h, ReleaseGeneration(s, h).value);
      }
    case DisconnectOne(h, _) =>
      DisconnectMoves(s, a);
      LeaseMovesKeep(s, a, h, s.leases[h].generation);
    case TakeOver(h, generation, _, _, _) =>
      TakeoverMoves(s, a);
      LeaseMovesKeep(s, a, h, generation);
    case DropLease => DropLeaseKeeps(s, a);
    case EndRekey => EndRekeyKeeps(s, a);
    case _ => RuntimeMovesKeep(s, a);
  }

  lemma {:induction false} RunInv(states: seq<State>, actions: seq<Action>, i: nat)
    requires IsDisciplinedRun(states, actions) && i <= |actions|
    ensures Inv(states[i])
  {
    hide Do, Can, Disciplined, Inv;
    if i > 0 {
      RunInv(states, actions, i - 1);
      StepKeeps(states[i - 1], actions[i - 1]);
    } else {
      InitInv(states[0]);
    }
  }

  lemma InitInv(s: State)
    requires Init(s)
    ensures Inv(s)
  {
    hide Max;
  }

  // ---------------------------------------------------------------- over whole runs

  /** Of any two commits of one (handle, generation) domain the later one has the larger revision. */
  lemma RevisionsStrictlyIncrease(states: seq<State>, actions: seq<Action>, i: nat, j: nat, k: nat)
    requires IsDisciplinedRun(states, actions) && i <= |actions|
    requires j < k < |states[i].log|
    requires states[i].log[j].handle == states[i].log[k].handle
    requires states[i].log[j].generation == states[i].log[k].generation
    ensures states[i].log[j].revision < states[i].log[k].revision
  {
    hide Do, Can, Disciplined, Places, PoolInv, Behind;
    RunInv(states, actions, i);
    assert DomainOfCommit(states[i].log[j]) == DomainOfCommit(states[i].log[k]);
  }

  lemma StepGrowsLog(s: State, a: Action)
    requires Can(s, a)
    ensures s.log <= Do(s, a).log
  {
    hide Max;
  }

  lemma {:induction false} LogGrows(states: seq<State>, actions: seq<Action>, i: nat, j: nat)
    requires IsRun(states, actions) && i <= j <= |actions|
    ensures states[i].log <= states[j].log
    decreases j
  {
    hide Do, Can;
    if i < j {
      LogGrows(states, actions, i, j - 1);
      StepGrowsLog(states[j - 1], actions[j - 1]);
    }
  }

  /** A takeover changed hands: the lease moved one revision on from the one the caller named. */
  predicate TookOver(s: State, a: Action)
  {
    a.TakeOver? && Can(s, a) && a.revision < LAST_REVISION
  }

  lemma TakeoverIsLogged(s: State, a: Action)
    requires TookOver(s, a)
    ensures Do(s, a).log == s.log + [Commit(a.h, a.generation, a.revision + 1, Some(LeaseHolder(a.c, a.t)))]
  {
  }

  /** The compare-and-swap: of several takeovers naming the same revision at most one succeeds. */
  lemma OneTakeoverPerRevision(states: seq<State>, actions: seq<Action>, i: nat, j: nat)
    requires IsDisciplinedRun(states, actions) && i <= j < |actions|
    requires TookOver(states[i], actions[i]) && TookOver(states[j], actions[j])
    requires actions[i].h == actions[j].h && actions[i].generation == actions[j].generation
    requires actions[i].revision == actions[j].revision
    ensures i == j
  {
    hide Do, Can, Disciplined;
    if i < j {
      TakeoverIsLogged(states[i], actions[i]);
      TakeoverIsLogged(states[j], actions[j]);
      LogGrows(states, actions, i + 1, j);
      var l := states[j + 1].log;
      assert l[|states[i].log|] == states[i + 1].log[|states[i].log|];
      RevisionsStrictlyIncrease(states, actions, j + 1, |states[i].log|, |states[j].log|);
    }
  }

  // ---------------------------------------------------------------- rekeying

  /** Inside a rekey, only the holder's own release or disconnect can touch the lease that is about to move. */
  predicate Spares(a: Action, from: Handle, c: Connection) {
    && !a.EndRekey?
    && !(a.ReleaseBy? && a.h == from && a.c == c)
    && !(a.DisconnectOne? && a.h == from && a.c == c)
  }

  lemma RekeyWindowStep(s: State, a: Action, holder: LeaseHolder)
    requires Inv(s) && Can(s, a) && Disciplined(s, a) && s.pool.Rekeying?
    requires s.pool.from != s.runtimes[s.pool.id].handle
    requires s.pool.from in s.leases && s.leases[s.pool.from].holder == Some(holder)
    requires Spares(a, s.pool.from, holder.connection)
    ensures var s' := Do(s, a);
      && s'.pool == s.pool && s.pool.from in s'.leases && s'.leases[s.pool.from] == s.leases[s.pool.from]
      && s.pool.id in s'.runtimes && s'.runtimes[s.pool.id].handle == s.runtimes[s.pool.id].handle
  {
    hide Behind, Climbing, Logged, Owned;
  }

  lemma {:induction false} RekeyWindow(states: seq<State>, actions: seq<Action>, i: nat, j: nat, holder: LeaseHolder)
    requires IsDisciplinedRun(states, actions) && i <= j <= |actions|
    requires states[i].pool.Rekeying? && states[i].pool.id in states[i].runtimes
    requires states[i].pool.from != states[i].runtimes[states[i].pool.id].handle
    requires states[i].pool.from in states[i].leases && states[i].leases[states[i].pool.from].holder == Some(holder)
    requires forall k :: i <= k < j ==> Spares(actions[k], states[i].pool.from, holder.connection)
    ensures var s := states[i]; var s' := states[j];
      && s'.pool == s.pool && s.pool.from in s'.leases && s'.leases[s.pool.from] == s.leases[s.pool.from]
      && s.pool.id in s'.runtimes && s'.runtimes[s.pool.id].handle == s.runtimes[s.pool.id].handle
    decreases j
  {
    hide Do, Can, Disciplined, Inv;
    if i < j {
      RekeyWindow(states, actions, i, j - 1, holder);
      RunInv(states, actions, j - 1);
      RekeyWindowStep(states[j - 1], actions[j - 1], holder);
    }
  }

  /** What the actor does to the lease that moves. */
  lemma EndRekeyCarries(s: State, a: Action)
    requires Can(s, a) && a.EndRekey? && s.pool.from in s.leases && !Exhausted(s.leases[s.pool.from])
    requires s.leases[s.pool.from].holder.Some?
    ensures var r := s.runtimes[s.pool.id]; var l := s.leases[s.pool.from]; var s' := Do(s, a);
      && r.handle in s'.leases && (r.handle != s.pool.from ==> s.pool.from !in s'.leases)
      && s'.leases[r.handle] == if l.generation == r.generation then l.(revision := l.revision + 1)
         else FreshLease(r.generation)
  {
    hide Max;
  }

  /** Rekeying from start to end: when the runtime keeps its generation up to the end, the holder and its
      token survive under the new handle, one revision on, whatever else runs in between, short of the
      holder letting go; when it does not, the new lease starts over and is free. */
  lemma RekeyPreservesHolder(states: seq<State>, actions: seq<Action>, i: nat, j: nat, holder: LeaseHolder)
    requires IsDisciplinedRun(states, actions) && i < j < |actions|
    requires actions[i].BeginRekey? && actions[j].EndRekey?
    requires actions[i].h in states[i].leases && states[i].leases[actions[i].h].holder == Some(holder)
    requires !Exhausted(states[i].leases[actions[i].h]) && actions[i].h != actions[i].next
    requires forall k :: i < k < j ==> Spares(actions[k], actions[i].h, holder.connection)
    ensures var l := states[i].leases[actions[i].h];
      var next := actions[i].next; var id := states[i].tracked[actions[i].h];
      && next in states[j + 1].leases && actions[i].h !in states[j + 1].leases
      && id in states[j].runtimes
      && states[j + 1].leases[next] ==
           if states[j].runtimes[id].generation == l.generation then l.(revision := l.revision + 1)
           else FreshLease(states[j].runtimes[id].generation)
  {
    hide Disciplined, Inv;
    RekeyWindow(states, actions, i + 1, j, holder);
    EndRekeyCarries(states[j], actions[j]);
  }

  // ---------------------------------------------------------------- why the discipline is needed

  /** Plays a list of actions, as far as the code accepts them. */
  function Play(s: State, actions: seq<Action>): Option<State>
    decreases |actions|
  {
    if actions == [] then Some(s)
    else if !Can(s, actions[0]) then None
    else Play(Do(s, actions[0]), actions[1..])
  }

  predicate Goes(s: State, a: Action, s': State) { Can(s, a) && Do(s, a) == s' }

  lemma PlayOne(s: State, a: Action, s': State, rest: seq<Action>)
    requires Goes(s, a, s')
    ensures Play(s, [a] + rest) == Play(s', rest)
  {
    assert ([a] + rest)[1..] == rest;
  }

  lemma PlayThree(s: State, a: Action, s1: State, b: Action, s2: State, c: Action, s3: State)
    requires Goes(s, a, s1) && Goes(s1, b, s2) && Goes(s2, c, s3)
    ensures Play(s, [a, b, c]) == Some(s3)
  {
    hide Goes;
    PlayOne(s, a, s1, [b, c]);
    PlayOne(s1, b, s2, [c]);
    PlayOne(s2, c, s3, []);
    assert [a] + [b, c] == [a, b, c] && [b] + [c] == [b, c] && [c] + [] == [c];
  }

  /** A tracked runtime 0 under handle "h", in generation 1 and claimed by "a" with token 1. */
  const CLAIMED := State(
    map["h" := Lease(1, 1, Some(LeaseHolder("a", 1)), false)], map["h" := 0], map[0 := Runtime("h", 1)], Free,
    {1}, {Domain("h", 0), Domain("h", 1)}, [Commit("h", 1, 1, Some(LeaseHolder("a", 1)))])

  const STARTED := State(map[], map["h" := 0], map[0 := Runtime("h", 1)], Free, {}, {Domain("h", 0), Domain("h", 1)},
    [])

  /** Opening a session, starting it and claiming it. */
  lemma ClaimedIsReachable()
    ensures Play(State(map[], map[], map[], Free, {}, {}, []), [Track("h", 0, 0), StartNext(0), BeginClaim(0)])
         == Some(STARTED.(pool := Claiming(0)))
    ensures Goes(STARTED.(pool := Claiming(0)), EndClaim("a", 1), CLAIMED)
  {
    hide Max;
    var s0 := State(map[], map[], map[], Free, {}, {}, []);
    var s1 := State(map[], map["h" := 0], map[0 := Runtime("h", 0)], Free, {}, {Domain("h", 0)}, []);
    assert Goes(s0, Track("h", 0, 0), s1);
    assert Goes(s1, StartNext(0), STARTED);
    PlayThree(s0, Track("h", 0, 0), s1, StartNext(0), STARTED, BeginClaim(0), STARTED.(pool := Claiming(0)));
  }

  /** A forgotten session that is opened again starts counting generations from zero, so that the same
      (handle, generation, revision) is committed a second time, for another holder. */
  lemma ReopenedSessionRepeatsRevision()
    ensures var gone := CLAIMED.(tracked := map[], leases := map[], runtimes :=
      map[0 := Runtime("h", 1), 1 := Runtime("h", 0)]);
      && Play(CLAIMED, [BeginForget("h"), DropLease, Track("h", 1, 0)]) == Some(gone.(tracked := map["h" := 1]))
      && exists s :: Play(gone.(tracked := map["h" := 1]), [StartNext(1), BeginClaim(1), EndClaim("b", 2)]) == Some(s)
           && s.log == CLAIMED.log + [Commit("h", 1, 1, Some(LeaseHolder("b", 2)))]
  {
    hide Max;
    var f1 := CLAIMED.(tracked := map[], pool := Forgetting("h"));
    var f2 := CLAIMED.(tracked := map[], leases := map[]);
    var f3 := f2.(tracked := map["h" := 1], runtimes := map[0 := Runtime("h", 1), 1 := Runtime("h", 0)]);
    assert Goes(CLAIMED, BeginForget("h"), f1);
    assert Goes(f1, DropLease, f2);
    assert Goes(f2, Track("h", 1, 0), f3);
    PlayThree(CLAIMED, BeginForget("h"), f1, DropLease, f2, Track("h", 1, 0), f3);
    var g1 := f3.(runtimes := map[0 := Runtime("h", 1), 1 := Runtime("h", 1)]);
    var g2 := g1.(pool := Claiming(1));
    var g3 := g1.(leases := map["h" := Lease(1, 1, Some(LeaseHolder("b", 2)), false)], minted := {1, 2},
                  log := CLAIMED.log + [Commit("h", 1, 1, Some(LeaseHolder("b", 2)))]);
    assert Goes(f3, StartNext(1), g1);
    assert Goes(g1, BeginClaim(1), g2);
    assert Goes(g2, EndClaim("b", 2), g3);
    PlayThree(f3, StartNext(1), g1, BeginClaim(1), g2, EndClaim("b", 2), g3);
  }

  /** The session was deleted and opened again as runtime 1, which is started and claimed; a call that got hold
      of runtime 0 before the deletion still has it. */
  const REOPENED := State(
    map["h" := Lease(1, 1, Some(LeaseHolder("a", 1)), false)], map["h" := 1],
    map[0 := Runtime("h", 1), 1 := Runtime("h", 1)], Free,
    {1}, {Domain("h", 0), Domain("h", 1)}, [Commit("h", 1, 1, Some(LeaseHolder("a", 1)))])

  /** Deleting the session, opening it again, starting and claiming it. */
  lemma ReopenedIsReachable()
    ensures var idle := REOPENED.(leases := map[], minted := {}, log := []);
      && Play(STARTED, [BeginForget("h"), DropLease, Track("h", 1, 0)])
           == Some(idle.(runtimes := map[0 := Runtime("h", 1), 1 := Runtime("h", 0)]))
      && Play(idle.(runtimes := map[0 := Runtime("h", 1), 1 := Runtime("h", 0)]),
           [StartNext(1), BeginClaim(1), EndClaim("a", 1)]) == Some(REOPENED)
  {
    hide Max;
    var f1 := STARTED.(tracked := map[], pool := Forgetting("h"));
    var f2 := STARTED.(tracked := map[]);
    var f3 := f2.(tracked := map["h" := 1], runtimes := map[0 := Runtime("h", 1), 1 := Runtime("h", 0)]);
    assert Goes(STARTED, BeginForget("h"), f1);
    assert Goes(f1, DropLease, f2);
    assert Goes(f2, Track("h", 1, 0), f3);
    PlayThree(STARTED, BeginForget("h"), f1, DropLease, f2, Track("h", 1, 0), f3);
    var g1 := REOPENED.(leases := map[], minted := {}, log := []);
    var g2 := g1.(pool := Claiming(1));
    assert Goes(f3, StartNext(1), g1);
    assert Goes(g1, BeginClaim(1), g2);
    assert Goes(g2, EndClaim("a", 1), REOPENED);
    PlayThree(f3, StartNext(1), g1, BeginClaim(1), g2, EndClaim("a", 1), REOPENED);
  }

  /** The same without the lease of the holder. */
  const LOST := State(
    map["h" := FreshLease(2)], map["h" := 1], map[0 := Runtime("h", 2), 1 := Runtime("h", 1)], Free,
    {1}, {Domain("h", 0), Domain("h", 1), Domain("h", 2)}, [Commit("h", 1, 1, Some(LeaseHolder("a", 1)))])

  lemma LateReconcileLosesLease()
    ensures Play(REOPENED, [StartNext(0), Reconcile(0), BeginClaim(1)]) == Some(LOST.(pool := Claiming(1)))
  {
    hide Max;
    var s1 := LOST.(leases := REOPENED.leases);
    assert Goes(REOPENED, StartNext(0), s1);
    assert Goes(s1, Reconcile(0), LOST);
    PlayThree(REOPENED, StartNext(0), s1, Reconcile(0), LOST, BeginClaim(1), LOST.(pool := Claiming(1)));
  }

  /** The call goes on: it starts runtime 0 again, which is tracked no longer, and reconciles. That throws away
      the lease of the runtime that is: the holder loses control, and the next claim commits the revision the
      domain already had. */
  lemma LateReconcileRepeatsRevision()
    ensures Play(REOPENED, [StartNext(0), Reconcile(0), BeginClaim(1)]) == Some(LOST.(pool := Claiming(1)))
    ensures Goes(LOST.(pool := Claiming(1)), EndClaim("b", 2),
      LOST.(leases := map["h" := Lease(1, 1, Some(LeaseHolder("b", 2)), false)], minted := {1, 2},
            log := REOPENED.log + [Commit("h", 1, 1, Some(LeaseHolder("b", 2)))]))
  {
    hide Max, Play;
    LateReconcileLosesLease();
  }
}

/** Exactly when a lease revision is announced that is not above the ones announced before: over every run of
    the code, disciplined or not. */
module SessionLeaseLoss {
  import opened Prelude
  import opened SessionLeases
  import opened SessionLeaseRevisions

  /** The domain a step would commit in. */
  function Target(s: State, a: Action): Domain
    requires Can(s, a)
  {
    match a
    case EndClaim(_, _) => var r := s.runtimes[s.pool.id]; Domain(r.handle, r.generation)
    case ReleaseBy(h, _, _) => Domain(h, if ReleaseGeneration(s, h).Some? then ReleaseGeneration(s, h).value else 0)
    case DisconnectOne(h, _) => Domain(h, s.leases[h].generation)
    case TakeOver(h, generation, _, _, _) => Domain(h, generation)
    case EndRekey => var r := s.runtimes[s.pool.id]; Domain(r.handle, r.generation)
    case _ => Domain("", 0)
  }

  /** The lease its commit is based on: what `leaseStateFor` returns, or the lease a rekey moves. */
  function Base(s: State, a: Action): Lease
    requires Can(s, a)
  {
    var d := Target(s, a);
    if a.EndRekey? && s.pool.from in s.leases then s.leases[s.pool.from] else LeaseFor(s.leases, d.handle, d.generation)
  }

  predicate Commits(s: State, a: Action) { Can(s, a) && Do(s, a).log != s.log }

  /** A commit goes one revision on from the lease it is based on. */
  lemma CommitGoesOn(s: State, a: Action)
    requires Commits(s, a)
    ensures var log := Do(s, a).log;
      && |log| == |s.log| + 1 && log[..|s.log|] == s.log
      && DomainOfCommit(log[|s.log|]) == Target(s, a)
      && log[|s.log|].revision == Base(s, a).revision + 1 <= LAST_REVISION
  {
  }

  // ---------------------------------------------------------------- one commit

  /** The lease does not know any more what was announced last for the domain. */
  ghost predicate Behindhand(log: seq<Commit>, d: Domain, l: Lease) {
    exists k :: 0 <= k < |log| && DomainOfCommit(log[k]) == d && l.revision < log[k].revision
  }

  /** A commit keeps the revisions of its domain climbing if and only if its lease is not behindhand. */
  lemma CommitClimbsIff(s: State, a: Action)
    requires Commits(s, a) && Climbing(s.log)
    ensures Climbing(Do(s, a).log) <==> !Behindhand(s.log, Target(s, a), Base(s, a))
  {
    hide Do, Can, Target, Base;
    CommitGoesOn(s, a);
    var log, n := Do(s, a).log, |s.log|;
    assert forall k :: 0 <= k < n ==> log[k] == s.log[k];
    if Behindhand(s.log, Target(s, a), Base(s, a)) {
      var k :| 0 <= k < n && DomainOfCommit(s.log[k]) == Target(s, a) && Base(s, a).revision < s.log[k].revision;
      assert !(log[k].revision < log[n].revision);
    } else {
      forall j, k | 0 <= j < k < |log| && DomainOfCommit(log[j]) == DomainOfCommit(log[k])
        ensures log[j].revision < log[k].revision
      {
        assert log[j] == s.log[j];
      }
    }
  }

  /** The revision announced last for a domain. */
  function LastRevision(log: seq<Commit>, d: Domain): (r: Option<nat>)
    ensures r.Some? <==> exists k :: 0 <= k < |log| && DomainOfCommit(log[k]) == d
    decreases |log|
  {
    if log == [] then None
    else
      var n := |log| - 1;
      if DomainOfCommit(log[n]) == d then Some(log[n].revision)
      else
        var r := LastRevision(log[..n], d);
        assert r.Some? ==> exists k :: 0 <= k < n && DomainOfCommit(log[..n][k]) == d;
        assert forall k :: 0 <= k < n ==> log[..n][k] == log[k];
        r
  }

  lemma {:induction false} LastIsHighest(log: seq<Commit>, d: Domain, k: nat)
    requires Climbing(log) && k < |log| && DomainOfCommit(log[k]) == d
    ensures LastRevision(log, d).Some? && log[k].revision <= LastRevision(log, d).value
    ensures exists j :: 0 <= j < |log| && DomainOfCommit(log[j]) == d && log[j].revision == LastRevision(log, d).value
    decreases |log|
  {
    var n := |log| - 1;
    if DomainOfCommit(log[n]) != d {
      LastIsHighest(log[..n], d, k);
      var j :| 0 <= j < n && DomainOfCommit(log[..n][j]) == d &&
        log[..n][j].revision == LastRevision(log[..n], d).value;
      assert log[j] == log[..n][j];
    }
  }

  /** What only ever holds: revisions are announced from one up to the last, and a lease is terminal only at
      the last one. */
  ghost predicate Sane(s: State) {
    && (forall k :: 0 <= k < |s.log| ==> 1 <= s.log[k].revision <= LAST_REVISION)
    && (forall h :: h in s.leases && s.leases[h].terminal ==> s.leases[h].revision >= LAST_REVISION)
  }

  lemma StepKeepsSane(s: State, a: Action)
    requires Sane(s) && Can(s, a)
    ensures Sane(Do(s, a))
  {
    hide Max;
    if Commits(s, a) { CommitGoesOn(s, a); }
    LeasesStaySane(s, a);
  }

  lemma LeasesStaySane(s: State, a: Action)
    requires Sane(s) && Can(s, a)
    ensures var s' := Do(s, a);
      forall h :: h in s'.leases && s'.leases[h].terminal ==> s'.leases[h].revision >= LAST_REVISION
  {
    hide Max;
  }

  lemma {:induction false} RunIsSane(states: seq<State>, actions: seq<Action>, i: nat)
    requires IsRun(states, actions) && i <= |actions|
    ensures Sane(states[i])
  {
    hide Do, Can, Sane;
    if i > 0 {
      RunIsSane(states, actions, i - 1);
      StepKeepsSane(states[i - 1], actions[i - 1]);
    } else {
      InitIsSane(states[0]);
    }
  }

  lemma InitIsSane(s: State)
    requires Init(s)
    ensures Sane(s)
  {
  }

  /** The entry from which a domain's next revision comes is gone, is of another generation, or is behind what
      was announced last. */
  predicate Lost(s: State, d: Domain, entry: Handle) {
    && LastRevision(s.log, d).Some?
    && (entry !in s.leases || s.leases[entry].generation != d.generation
        || s.leases[entry].revision < LastRevision(s.log, d).value)
  }

  lemma LostIsBehindhand(s: State, d: Domain, entry: Handle)
    requires Sane(s) && Climbing(s.log)
    ensures Lost(s, d, entry) <==> Behindhand(s.log, d, LeaseFor(s.leases, entry, d.generation))
  {
    hide LastRevision;
    if LastRevision(s.log, d).Some? {
      var k :| 0 <= k < |s.log| && DomainOfCommit(s.log[k]) == d;
      LastIsHighest(s.log, d, k);
      forall k | 0 <= k < |s.log| && DomainOfCommit(s.log[k]) == d
        ensures s.log[k].revision <= LastRevision(s.log, d).value
      {
        LastIsHighest(s.log, d, k);
      }
    }
  }

  /** The entry a commit goes on from: of the handle itself, or of the handle a rekey leaves. */
  function EntryOf(s: State, a: Action): Handle
    requires Can(s, a)
  {
    if a.EndRekey? then s.pool.from else Target(s, a).handle
  }

  lemma BaseIsEntry(s: State, a: Action)
    requires Commits(s, a)
    ensures Base(s, a) == LeaseFor(s.leases, EntryOf(s, a), Target(s, a).generation)
  {
    hide Max;
  }

  /** The branch of `leaseStateFor`: in any reachable state in which revisions have been climbing, the next
      commit keeps them climbing if and only if the entry it goes on from was not lost. */
  lemma NextCommitClimbsIff(states: seq<State>, actions: seq<Action>, i: nat, a: Action)
    requires IsRun(states, actions) && i <= |actions| && Climbing(states[i].log)
    requires Commits(states[i], a)
    ensures Climbing(Do(states[i], a).log) <==> !Lost(states[i], Target(states[i], a), EntryOf(states[i], a))
  {
    hide Do, Can, Sane, Lost, Behindhand, Climbing, Target, Base, EntryOf;
    RunIsSane(states, actions, i);
    CommitClimbsIff(states[i], a);
    BaseIsEntry(states[i], a);
    LostIsBehindhand(states[i], Target(states[i], a), EntryOf(states[i], a));
  }

  // ---------------------------------------------------------------- whole runs

  /** Over a whole run of any kind: revisions climb if and only if no commit was based on a lease that was
      behindhand. */
  lemma {:induction false} RevisionsClimbIff(states: seq<State>, actions: seq<Action>, n: nat)
    requires IsRun(states, actions) && n <= |actions|
    ensures Climbing(states[n].log) <==>
      forall i :: 0 <= i < n && Commits(states[i], actions[i]) ==>
        !Behindhand(states[i].log, Target(states[i], actions[i]), Base(states[i], actions[i]))
  {
    hide Do, Can, Target, Base, Behindhand, Climbing, Commits;
    if n > 0 {
      RevisionsClimbIff(states, actions, n - 1);
      LastStepClimbs(states[n - 1], actions[n - 1]);
    } else {
      NothingClimbs(states[0]);
    }
  }

  lemma NothingClimbs(s: State)
    requires Init(s)
    ensures Climbing(s.log)
  {
  }

  lemma LastStepClimbs(s: State, a: Action)
    requires Can(s, a)
    ensures Climbing(Do(s, a).log) <==>
      Climbing(s.log) && (Commits(s, a) ==> !Behindhand(s.log, Target(s, a), Base(s, a)))
  {
    hide Do, Can, Target, Base, Behindhand;
    if Commits(s, a) {
      CommitGoesOn(s, a);
      assert forall k :: 0 <= k < |s.log| ==> Do(s, a).log[k] == s.log[k];
      if Climbing(s.log) { CommitClimbsIff(s, a); }
      Shorter(s.log, Do(s, a).log);
    }
  }

  lemma Shorter(a: seq<Commit>, b: seq<Commit>)
    requires |a| <= |b| && b[..|a|] == a
    ensures Climbing(b) ==> Climbing(a)
  {
    assert forall k :: 0 <= k < |a| ==> a[k] == b[k];
  }

  /** In a run of any kind, two takeovers of one domain that name the same revision both succeed only if
      revisions have stopped climbing in between. */
  lemma OneTakeoverWhileClimbing(states: seq<State>, actions: seq<Action>, i: nat, j: nat)
    requires IsRun(states, actions) && i < j < |actions|
    requires TookOver(states[i], actions[i]) && TookOver(states[j], actions[j])
    requires actions[i].h == actions[j].h && actions[i].generation == actions[j].generation
    requires actions[i].revision == actions[j].revision
    ensures !Climbing(states[j + 1].log)
  {
    hide Do, Can;
    TakeoverIsLogged(states[i], actions[i]);
    TakeoverIsLogged(states[j], actions[j]);
    LogGrows(states, actions, i + 1, j);
    var l, m, n := states[j + 1].log, |states[i].log|, |states[j].log|;
    assert l[m] == states[i + 1].log[m];
    assert DomainOfCommit(l[m]) == DomainOfCommit(l[n]) && l[m].revision == l[n].revision;
  }

  // ---------------------------------------------------------------- a lost lease repeats a revision

  lemma {:induction false} PlayConcat(s: State, a: seq<Action>, b: seq<Action>)
    ensures Play(s, a + b) == match Play(s, a) case None => None case Some(t) => Play(t, b)
    decreases |a|
  {
    hide Do, Can;
    if a == [] {
      assert a + b == b;
    } else {
      assert (a + b)[0] == a[0] && (a + b)[1..] == a[1..] + b;
      if Can(s, a[0]) { PlayConcat(Do(s, a[0]), a[1..], b); }
    }
  }

  lemma {:induction false} FreshNumber(used: set<nat>) returns (n: nat)
    ensures n !in used && forall k :: k in used ==> k < n
    decreases |used|
  {
    if used == {} {
      n := 0;
    } else {
      var k :| k in used;
      n := FreshNumber(used - {k});
      assert forall j :: j in used ==> j == k || j in used - {k};
      n := if n <= k then k + 1 else n;
    }
  }

  /** Runtime `id` is tracked in domain `d`, and nobody is inside the pool lock. */
  predicate Working(s: State, id: RuntimeId, d: Domain) {
    s.pool.Free? && id in s.runtimes && s.runtimes[id] == Runtime(d.handle, d.generation) && d.handle in s.tracked &&
      s.tracked[d.handle] == id
  }

  /** One more commit in the domain: a claim of the free lease, or its holder letting go. */
  lemma CommitOnce(s: State, id: RuntimeId, d: Domain) returns (actions: seq<Action>, s': State)
    requires Working(s, id, d) && !Exhausted(LeaseFor(s.leases, d.handle, d.generation))
    ensures Play(s, actions) == Some(s') && Working(s', id, d)
    ensures |s'.log| == |s.log| + 1 && s'.log[..|s.log|] == s.log
    ensures var l := LeaseFor(s.leases, d.handle, d.generation); var l' := LeaseFor(s'.leases, d.handle, d.generation);
      && l'.revision == l.revision + 1 && !l'.terminal
      && DomainOfCommit(s'.log[|s.log|]) == d && s'.log[|s.log|].revision == l'.revision
  {
    hide Max;
    var l := LeaseFor(s.leases, d.handle, d.generation);
    if l.holder.None? {
      actions, s' := ClaimOnce(s, id, d);
    } else {
      var release := ReleaseBy(d.handle, l.holder.value.connection, None);
      actions, s' := [release], Do(s, release);
      assert [release][1..] == [];
    }
  }

  lemma ClaimOnce(s: State, id: RuntimeId, d: Domain) returns (actions: seq<Action>, s': State)
    requires Working(s, id, d) && !Exhausted(LeaseFor(s.leases, d.handle, d.generation))
    requires LeaseFor(s.leases, d.handle, d.generation).holder.None?
    ensures Play(s, actions) == Some(s') && Working(s', id, d)
    ensures |s'.log| == |s.log| + 1 && s'.log[..|s.log|] == s.log
    ensures var l := LeaseFor(s.leases, d.handle, d.generation); var l' := LeaseFor(s'.leases, d.handle, d.generation);
      && l'.revision == l.revision + 1 && !l'.terminal
      && DomainOfCommit(s'.log[|s.log|]) == d && s'.log[|s.log|].revision == l'.revision
  {
    hide Max;
    var t := FreshNumber(s.minted);
    var s1 := s.(pool := Claiming(id));
    assert Goes(s, BeginClaim(id), s1);
    s' := Do(s1, EndClaim("", t));
    assert Goes(s1, EndClaim("", t), s');
    actions := [BeginClaim(id), EndClaim("", t)];
    PlayOne(s, BeginClaim(id), s1, [EndClaim("", t)]);
    PlayOne(s1, EndClaim("", t), s', []);
    assert [BeginClaim(id)] + [EndClaim("", t)] == actions && [EndClaim("", t)] + [] == [EndClaim("", t)];
  }

  /** The revision announced at `k` is announced again. */
  ghost predicate RepeatsAt(log: seq<Commit>, k: nat) {
    && k < |log| - 1
    && DomainOfCommit(log[|log| - 1]) == DomainOfCommit(log[k]) && log[|log| - 1].revision == log[k].revision
  }

  /** From a lease that is behindhand, claims and releases alone lead to a revision that was announced. */
  lemma {:induction false} LostLeaseRepeats(s: State, id: RuntimeId, k: nat) returns (actions: seq<Action>, s': State)
    requires k < |s.log| && Working(s, id, DomainOfCommit(s.log[k])) && s.log[k].revision <= LAST_REVISION
    requires var l := LeaseFor(s.leases, s.log[k].handle, s.log[k].generation);
      !l.terminal && l.revision < s.log[k].revision
    ensures Play(s, actions) == Some(s') && s.log <= s'.log && RepeatsAt(s'.log, k)
    decreases s.log[k].revision - LeaseFor(s.leases, s.log[k].handle, s.log[k].generation).revision
  {
    hide Play, Working, LeaseFor;
    var d := DomainOfCommit(s.log[k]);
    actions, s' := CommitOnce(s, id, d);
    assert s'.log[k] == s.log[k];
    if LeaseFor(s'.leases, d.handle, d.generation).revision < s.log[k].revision {
      var more, end := LostLeaseRepeats(s', id, k);
      PlayConcat(s, actions, more);
      actions, s' := actions + more, end;
    }
  }

  // ---------------------------------------------------------------- every announced revision can be repeated

  /** Whoever is inside the pool lock leaves it. */
  lemma LeavePool(s: State) returns (actions: seq<Action>, s': State)
    requires s.pool.Claiming? || s.pool.Rekeying? ==> s.pool.id in s.runtimes
    ensures Play(s, actions) == Some(s') && s'.pool.Free? && s.log <= s'.log
  {
    match s.pool
    case Free => actions, s' := [], s;
    case Forgetting(_) => actions, s' := OneStep(s, DropLease);
    case Rekeying(_, _) => actions, s' := OneStep(s, EndRekey);
    case Claiming(_) =>
      var t := FreshNumber(s.minted);
      actions, s' := OneStep(s, EndClaim("", t));
  }

  lemma OneStep(s: State, a: Action) returns (actions: seq<Action>, s': State)
    requires Can(s, a)
    ensures Play(s, actions) == Some(s') && s' == Do(s, a) && s.log <= s'.log
  {
    hide Do, Can;
    actions, s' := [a], Do(s, a);
    assert [a] + [] == [a];
    PlayOne(s, a, s', []);
    StepGrowsLog(s, a);
  }

  /** Forgetting a session and opening it again, up to a generation of choice. */
  lemma Reopen(s: State, d: Domain) returns (actions: seq<Action>, s': State, id: RuntimeId)
    requires s.pool.Free?
    ensures Play(s, actions) == Some(s') && s.log == s'.log && Working(s', id, d) && d.handle !in s'.leases
  {
    id := FreshNumber(s.runtimes.Keys);
    var s1 := Do(s, BeginForget(d.handle));
    var s2 := Do(s1, DropLease);
    var s3 := Do(s2, Track(d.handle, id, 0));
    assert Goes(s, BeginForget(d.handle), s1) && Goes(s1, DropLease, s2) && Goes(s2, Track(d.handle, id, 0), s3);
    PlayThree(s, BeginForget(d.handle), s1, DropLease, s2, Track(d.handle, id, 0), s3);
    var more, end := StartUpTo(s3, id, d);
    actions, s' := [BeginForget(d.handle), DropLease, Track(d.handle, id, 0)] + more, end;
    PlayConcat(s, [BeginForget(d.handle), DropLease, Track(d.handle, id, 0)], more);
  }

  lemma {:induction false} StartUpTo(s: State, id: RuntimeId, d: Domain) returns (actions: seq<Action>, s': State)
    requires s.pool.Free? && id in s.runtimes && s.runtimes[id].handle == d.handle
    requires s.runtimes[id].generation <= d.generation
    requires d.handle in s.tracked && s.tracked[d.handle] == id
    ensures Play(s, actions) == Some(s') && s.log == s'.log && Working(s', id, d) && s'.leases == s.leases
    decreases d.generation - s.runtimes[id].generation
  {
    if s.runtimes[id].generation == d.generation {
      actions, s' := [], s;
    } else {
      var s1 := Do(s, StartNext(id));
      var more, end := StartUpTo(s1, id, d);
      assert Goes(s, StartNext(id), s1);
      PlayOne(s, StartNext(id), s1, more);
      actions, s' := [StartNext(id)] + more, end;
    }
  }

  ghost predicate PoolSane(s: State) { s.pool.Claiming? || s.pool.Rekeying? ==> s.pool.id in s.runtimes }

  lemma StepKeepsPoolSane(s: State, a: Action)
    requires PoolSane(s) && Can(s, a)
    ensures PoolSane(Do(s, a))
  {
    hide Max;
  }

  lemma {:induction false} RunIsPoolSane(states: seq<State>, actions: seq<Action>, i: nat)
    requires IsRun(states, actions) && i <= |actions|
    ensures PoolSane(states[i])
  {
    hide Do, Can, PoolSane;
    if i > 0 {
      RunIsPoolSane(states, actions, i - 1);
      StepKeepsPoolSane(states[i - 1], actions[i - 1]);
    } else {
      assert PoolSane(states[0]) by { InitIsPoolSane(states[0]); }
    }
  }

  lemma InitIsPoolSane(s: State)
    requires Init(s)
    ensures PoolSane(s)
  {
  }

  /** No announced revision is safe: every reachable state can be continued so that it is announced again,
      for the same handle and generation. That is what follows an undisciplined step, and what it takes is
      the one undisciplined step of opening the session again. */
  lemma EveryRevisionCanRepeat(states: seq<State>, actions: seq<Action>, i: nat, k: nat)
    returns (more: seq<Action>, s': State)
    requires IsRun(states, actions) && i <= |actions| && k < |states[i].log|
    ensures Play(states[i], more) == Some(s') && states[i].log <= s'.log && RepeatsAt(s'.log, k)
  {
    hide Do, Can, Play, Sane, PoolSane, Working;
    var s := states[i];
    RunIsSane(states, actions, i);
    RunIsPoolSane(states, actions, i);
    AnnouncedIsPositive(s, k);
    var d := DomainOfCommit(s.log[k]);
    var first, s1 := LeavePool(s);
    var second, s2, id := Reopen(s1, d);
    assert s2.log[k] == s.log[k];
    var third, s3 := LostLeaseRepeats(s2, id, k);
    PlayConcat(s, first, second);
    PlayConcat(s, first + second, third);
    more, s' := first + second + third, s3;
  }

  lemma AnnouncedIsPositive(s: State, k: nat)
    requires Sane(s) && PoolSane(s) && k < |s.log|
    ensures 1 <= s.log[k].revision <= LAST_REVISION
    ensures s.pool.Claiming? || s.pool.Rekeying? ==> s.pool.id in s.runtimes
  {
  }
}

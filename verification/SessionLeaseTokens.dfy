/** Fencing tokens over all runs, whatever the interleaving and however generations are handed out. */
module SessionLeaseTokens {
  import opened Prelude
  import opened SessionLeases

  predicate HoldsToken(s: State, h: Handle, t: Token) {
    h in s.leases && s.leases[h].holder.Some? && s.leases[h].holder.value.token == t
  }

  ghost predicate Held(s: State, t: Token) { exists h :: HoldsToken(s, h, t) }

  /** A token was drawn before it fences anything, and fences one handle only. */
  ghost predicate TokenInv(s: State) {
    && (forall h, t :: HoldsToken(s, h, t) ==> t in s.minted)
    && (forall h1, h2, t :: HoldsToken(s, h1, t) && HoldsToken(s, h2, t) ==> h1 == h2)
  }

  /** Where a token of the next state comes from: freshly drawn, or carried over with its generation and
      connection from a lease that does not hold it any more elsewhere. */
  ghost predicate Carried(s: State, s': State, h: Handle, t: Token) {
    || (t !in s.minted && t in s'.minted && h in s'.leases)
    || (exists h0 :: HoldsToken(s, h0, t) && h in s'.leases
         && s'.leases[h].generation == s.leases[h0].generation
         && s'.leases[h].holder == s.leases[h0].holder)
  }

  /** Every step changes the leases at no more than two handles: `from`, which it may clear, and `at`. */
  ghost predicate Touches(s: State, s': State, from: Handle, at: Handle) {
    && (forall h :: h != from && h != at ==> (h in s'.leases <==> h in s.leases))
    && (forall h :: h != from && h != at && h in s.leases ==> s'.leases[h] == s.leases[h])
    && (from != at ==> from !in s'.leases)
    && (at in s'.leases && s'.leases[at].holder.Some? ==>
          || (s'.leases[at].holder.value.token !in s.minted && s'.leases[at].holder.value.token in s'.minted)
          || (at in s.leases && s'.leases[at].holder == s.leases[at].holder &&
            s'.leases[at].generation == s.leases[at].generation)
          || (from in s.leases && s'.leases[at].holder == s.leases[from].holder &&
            s'.leases[at].generation == s.leases[from].generation))
    && s.minted <= s'.minted
  }

  lemma StepTouches(s: State, a: Action) returns (from: Handle, at: Handle)
    requires Can(s, a)
    ensures Touches(s, Do(s, a), from, at)
  {
    match a
    case Reconcile(id) => from, at := s.runtimes[id].handle, s.runtimes[id].handle;
    case EndClaim(_, _) => from, at := s.runtimes[s.pool.id].handle, s.runtimes[s.pool.id].handle;
    case ReleaseBy(h, _, _) => from, at := h, h;
    case DisconnectOne(h, _) => from, at := h, h;
    case TakeOver(h, _, _, _, _) => from, at := h, h;
    case EndRekey => from, at := s.pool.from, s.runtimes[s.pool.id].handle;
    case DropLease => from, at := s.pool.handle, s.pool.handle;
    case _ => from, at := "", "";
  }

  lemma StepCarries(s: State, a: Action, h: Handle, t: Token)
    requires Can(s, a) && HoldsToken(Do(s, a), h, t)
    ensures Carried(s, Do(s, a), h, t)
  {
    hide Do, Can;
    var from, at := StepTouches(s, a);
    var s' := Do(s, a);
    if h != from && h != at {
      assert HoldsToken(s, h, t);
    } else if t in s.minted || t !in s'.minted {
      if at in s.leases && s'.leases[at].holder == s.leases[at].holder &&
        s'.leases[at].generation == s.leases[at].generation {
        assert HoldsToken(s, at, t);
      } else {
        assert HoldsToken(s, from, t);
      }
    }
  }

  /** A token outside the touched handle was there before and is not at the touched handle now. */
  lemma OnlyThere(s: State, s': State, from: Handle, at: Handle, h: Handle, t: Token)
    requires TokenInv(s) && Touches(s, s', from, at) && HoldsToken(s', h, t) && h != at
    ensures HoldsToken(s, h, t) && !HoldsToken(s', at, t)
  {
    hide Max;
    assert HoldsToken(s, h, t);
    assert !HoldsToken(s, at, t) && (from != at ==> !HoldsToken(s, from, t));
  }

  lemma StepKeepsTokens(s: State, a: Action)
    requires TokenInv(s) && Can(s, a)
    ensures TokenInv(Do(s, a)) && s.minted <= Do(s, a).minted
  {
    hide Do, Can;
    var s' := Do(s, a);
    var from, at := StepTouches(s, a);
    forall h, t | HoldsToken(s', h, t) ensures t in s'.minted { StepCarries(s, a, h, t); }
    forall h1, h2, t | HoldsToken(s', h1, t) && HoldsToken(s', h2, t) ensures h1 == h2 {
      if h1 != at { OnlyThere(s, s', from, at, h1, t); }
      if h2 != at { OnlyThere(s, s', from, at, h2, t); }
    }
  }

  /** A token that was drawn and fences nothing any more never fences anything again. */
  lemma StepKeepsRetired(s: State, a: Action, t: Token)
    requires Can(s, a) && t in s.minted && !Held(s, t)
    ensures t in Do(s, a).minted && !Held(Do(s, a), t)
  {
    hide Do, Can;
    var _, _ := StepTouches(s, a);
    if Held(Do(s, a), t) {
      var h :| HoldsToken(Do(s, a), h, t);
      StepCarries(s, a, h, t);
    }
  }

  lemma {:induction false} RunTokens(states: seq<State>, actions: seq<Action>, i: nat)
    requires IsRun(states, actions) && i <= |actions|
    ensures TokenInv(states[i])
  {
    hide Do, Can;
    if i > 0 {
      RunTokens(states, actions, i - 1);
      StepKeepsTokens(states[i - 1], actions[i - 1]);
    }
  }

  /** In every reachable state of every run a token lives in at most one lease. */
  lemma TokenFencesOneLease(states: seq<State>, actions: seq<Action>, i: nat, h1: Handle, h2: Handle, t: Token)
    requires IsRun(states, actions) && i <= |actions|
    requires HoldsToken(states[i], h1, t) && HoldsToken(states[i], h2, t)
    ensures h1 == h2
  {
    hide Do, Can, HoldsToken, TokenInv;
    RunTokens(states, actions, i);
    TokenInvUnique(states[i], h1, h2, t);
  }

  lemma TokenInvUnique(s: State, h1: Handle, h2: Handle, t: Token)
    requires TokenInv(s) && HoldsToken(s, h1, t) && HoldsToken(s, h2, t)
    ensures h1 == h2 && t in s.minted
  {
  }

  lemma {:induction false} RetiredStays(states: seq<State>, actions: seq<Action>, i: nat, j: nat, t: Token)
    requires IsRun(states, actions) && i <= j <= |actions|
    requires t in states[i].minted && !Held(states[i], t)
    ensures t in states[j].minted && !Held(states[j], t)
    decreases j
  {
    hide Do, Can, Held;
    if i < j {
      RetiredStays(states, actions, i, j - 1, t);
      StepKeepsRetired(states[j - 1], actions[j - 1], t);
    }
  }

  lemma AdmittedIsHeld(s: State, id: RuntimeId, c: Connection, t: Token)
    requires Admitted(s, id, c, t)
    ensures Held(s, t)
  {
    assert HoldsToken(s, s.runtimes[id].handle, t);
  }

  /** The steps that take token `t` from the lease of `h`: a takeover, a release by its connection that names
      no other token, and the end of its connection. */
  predicate GivesUp(s: State, a: Action, h: Handle, t: Token)
    requires HoldsToken(s, h, t)
  {
    match a
    case TakeOver(at, _, _, _, _) => at == h
    case ReleaseBy(at, c, token) => at == h && HeldBy(s.leases[h], c) && (token.None? || token.value == t)
    case DisconnectOne(at, c) => at == h && HeldBy(s.leases[h], c)
    case _ => false
  }

  /** A lease that lost token `t` retired it. */
  lemma LostIsRetired(s: State, a: Action, h: Handle, t: Token)
    requires TokenInv(s) && Can(s, a) && HoldsToken(s, h, t) && GivesUp(s, a, h, t)
    ensures t in Do(s, a).minted && !Held(Do(s, a), t)
  {
    hide Max;
    var s' := Do(s, a);
    forall h' ensures !HoldsToken(s', h', t) {
      if h' != h { assert HoldsToken(s', h', t) ==> HoldsToken(s, h', t); }
      else if a.TakeOver? && !Exhausted(LeaseFor(s.leases, h, a.generation)) {
        assert s'.leases[h].holder.value.token == a.t;
      }
    }
  }

  /** A takeover, a release and the end of its connection fence the previous holder off for good: its token is
      never admitted again, to no runtime and from no connection, in any continuation of the run. */
  lemma SupersededTokenIsNeverAdmitted(states: seq<State>, actions: seq<Action>, i: nat, j: nat, h: Handle, t: Token,
                                       id: RuntimeId, c: Connection)
    requires IsRun(states, actions) && i < j <= |actions|
    requires HoldsToken(states[i], h, t) && GivesUp(states[i], actions[i], h, t)
    ensures !Admitted(states[j], id, c, t)
  {
    hide Do, Can, Held, HoldsToken, Admitted, TokenInv, GivesUp;
    RunTokens(states, actions, i);
    LostIsRetired(states[i], actions[i], h, t);
    RetiredStays(states, actions, i + 1, j, t);
    if Admitted(states[j], id, c, t) { AdmittedIsHeld(states[j], id, c, t); }
  }

  // ---------------------------------------------------------------- what can be done

  /** Compare and swap: a takeover goes through exactly for the tracked runtime of that generation whose lease another
      connection holds at the revision named; it is then held by the new one, one revision on, and announced. */
  lemma TakeoverIff(s: State, h: Handle, generation: nat, revision: nat, c: Connection, t: Token)
    ensures Can(s, TakeOver(h, generation, revision, c, t)) <==>
      && s.pool.Free? && t !in s.minted
      && h in s.tracked && s.tracked[h] in s.runtimes && s.runtimes[s.tracked[h]] == Runtime(h, generation)
      && h in s.leases && s.leases[h].generation == generation && s.leases[h].revision == revision
      && !s.leases[h].terminal && s.leases[h].holder.Some? && s.leases[h].holder.value.connection != c
    ensures Can(s, TakeOver(h, generation, revision, c, t)) && revision < LAST_REVISION ==>
      var s' := Do(s, TakeOver(h, generation, revision, c, t));
      var after := Lease(generation, revision + 1, Some(LeaseHolder(c, t)), false);
      && s' == s.(leases := s.leases[h := after], minted := s.minted + {t},
                  log := s.log + [Commit(h, generation, revision + 1, after.holder)])
  {
    hide Max;
  }

  ghost predicate PoolOk(s: State) { s.pool.Claiming? || s.pool.Rekeying? ==> s.pool.id in s.runtimes }

  lemma {:induction false} RunPool(states: seq<State>, actions: seq<Action>, i: nat)
    requires IsRun(states, actions) && i <= |actions|
    ensures PoolOk(states[i])
  {
    hide Do, Can;
    if i > 0 {
      RunPool(states, actions, i - 1);
      StepKeepsPool(states[i - 1], actions[i - 1]);
    }
  }

  lemma StepKeepsPool(s: State, a: Action)
    requires PoolOk(s) && Can(s, a)
    ensures PoolOk(Do(s, a))
  {
    hide Max;
  }

  lemma {:induction false} FreshToken(drawn: set<Token>) returns (t: Token)
    ensures forall d :: d in drawn ==> d < t
    decreases |drawn|
  {
    t := 0;
    if drawn != {} {
      var d :| d in drawn;
      var n := FreshToken(drawn - {d});
      t := Max(n, d + 1);
      assert forall x :: x in drawn ==> x == d || x in drawn - {d};
    }
  }

  /** Whoever is inside the pool lock can leave it in one step, in every reachable state. */
  lemma PoolCanBeFreed(states: seq<State>, actions: seq<Action>, i: nat)
    requires IsRun(states, actions) && i <= |actions| && !states[i].pool.Free?
    ensures exists a :: Can(states[i], a) && Do(states[i], a).pool == Free
  {
    hide Max;
    var s := states[i];
    RunPool(states, actions, i);
    match s.pool
    case Claiming(_) =>
      var t := FreshToken(s.minted);
      assert Can(s, EndClaim("", t)) && Do(s, EndClaim("", t)).pool == Free;
    case Rekeying(_, _) => assert Can(s, EndRekey) && Do(s, EndRekey).pool == Free;
    case Forgetting(_) => assert Can(s, DropLease) && Do(s, DropLease).pool == Free;
  }

  // ---------------------------------------------------------------- generations

  lemma {:induction false} TokenKeepsGeneration(states: seq<State>, actions: seq<Action>, i: nat, j: nat,
                                                h: Handle, h': Handle, t: Token)
    requires IsRun(states, actions) && i <= j <= |actions|
    requires HoldsToken(states[i], h, t) && HoldsToken(states[j], h', t)
    ensures states[j].leases[h'].generation == states[i].leases[h].generation
    ensures states[j].leases[h'].holder == states[i].leases[h].holder
    decreases j
  {
    hide Do, Can, Held, TokenInv;
    RunTokens(states, actions, i);
    if i == j {
      TokenInvUnique(states[i], h, h', t);
    } else {
      TokenInvUnique(states[i], h, h, t);
      MintedGrows(states, actions, i, j - 1);
      StepCarries(states[j - 1], actions[j - 1], h', t);
      var h0 :| HoldsToken(states[j - 1], h0, t)
        && states[j].leases[h'].generation == states[j - 1].leases[h0].generation
        && states[j].leases[h'].holder == states[j - 1].leases[h0].holder;
      TokenKeepsGeneration(states, actions, i, j - 1, h, h0, t);
    }
  }

  lemma {:induction false} MintedGrows(states: seq<State>, actions: seq<Action>, i: nat, j: nat)
    requires IsRun(states, actions) && i <= j <= |actions|
    ensures states[i].minted <= states[j].minted
    decreases j
  {
    hide Do, Can;
    if i < j {
      MintedGrows(states, actions, i, j - 1);
      var _, _ := StepTouches(states[j - 1], actions[j - 1]);
    }
  }

  lemma StepRaisesGenerations(s: State, a: Action, id: RuntimeId)
    requires Can(s, a) && id in s.runtimes
    ensures id in Do(s, a).runtimes && s.runtimes[id].generation <= Do(s, a).runtimes[id].generation
  {
    hide Max;
  }

  lemma {:induction false} GenerationsRise(states: seq<State>, actions: seq<Action>, i: nat, j: nat, id: RuntimeId)
    requires IsRun(states, actions) && i <= j <= |actions| && id in states[i].runtimes
    ensures id in states[j].runtimes && states[i].runtimes[id].generation <= states[j].runtimes[id].generation
    decreases j
  {
    hide Do, Can;
    if i < j {
      GenerationsRise(states, actions, i, j - 1, id);
      StepRaisesGenerations(states[j - 1], actions[j - 1], id);
    }
  }

  /** Once a runtime has moved past the generation a token was issued in, that token is never admitted to
      it again, even while the old lease entry is still in the map. */
  lemma PreviousGenerationTokenIsNeverAdmitted(states: seq<State>, actions: seq<Action>, i: nat, j: nat, k: nat,
                                               h: Handle, t: Token, id: RuntimeId, c: Connection)
    requires IsRun(states, actions) && i <= j <= k <= |actions|
    requires HoldsToken(states[i], h, t)
    requires id in states[j].runtimes && states[i].leases[h].generation < states[j].runtimes[id].generation
    ensures !Admitted(states[k], id, c, t)
  {
    hide Do, Can;
    if Admitted(states[k], id, c, t) {
      var h' := states[k].runtimes[id].handle;
      assert HoldsToken(states[k], h', t);
      TokenKeepsGeneration(states, actions, i, k, h, h', t);
      GenerationsRise(states, actions, j, k, id);
    }
  }
}

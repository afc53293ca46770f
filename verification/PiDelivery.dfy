/** How the Pi host hands a decoded frame over: every lease is committed once or given back, whatever the
    consumer, the deadline and the process do meanwhile. */
module PiDelivery {
  import opened Prelude
  import opened ContentRefs
  import opened CustodyObjects

  // ---------------------------------------------------------------- the decode deadline

  /** What can happen to a running decode; the operation itself completes once. */
  datatype RaceEvent = Aborted | Completed(lease: Option<nat>) | DecodeFailed

  /** `settled` is the closure's flag; `resolved` and `discarded` are the leases that reached the caller and
      the ones that were released because nobody waits any more. */
  datatype Race = Race(settled: bool, rejected: bool, resolved: seq<Option<nat>>, discarded: seq<nat>)

  const RUNNING := Race(false, false, [], [])

  function Settle(r: Race, e: RaceEvent): Race {
    match e
    case Aborted => if r.settled then r else r.(settled := true, rejected := true)
    case DecodeFailed => if r.settled then r else r.(settled := true, rejected := true)
    case Completed(lease) =>
      if !r.settled then r.(settled := true, resolved := r.resolved + [lease])
      else if lease.Some? then r.(discarded := r.discarded + [lease.value])
      else r
  }

  function SettleAll(r: Race, events: seq<RaceEvent>): Race
    decreases |events|
  {
    if events == [] then r else SettleAll(Settle(r, events[0]), events[1..])
  }

  /** The leases of all completions, in order. */
  function Leases(events: seq<RaceEvent>): seq<nat>
    decreases |events|
  {
    if events == [] then []
    else (if events[0].Completed? && events[0].lease.Some? then [events[0].lease.value] else []) + Leases(events[1..])
  }

  function Held(resolved: seq<Option<nat>>): seq<nat>
    decreases |resolved|
  {
    if resolved == [] then [] else (if resolved[0].Some? then [resolved[0].value] else []) + Held(resolved[1..])
  }

  lemma {:induction false} HeldSnoc(resolved: seq<Option<nat>>, l: Option<nat>)
    ensures Held(resolved + [l]) == Held(resolved) + if l.Some? then [l.value] else []
    decreases |resolved|
  {
    if resolved == [] {
      assert resolved + [l] == [l];
    } else {
      HeldSnoc(resolved[1..], l);
      assert (resolved + [l])[0] == resolved[0] && (resolved + [l])[1..] == resolved[1..] + [l];
    }
  }

  /** Deadline, abort and completion in any order: the caller gets one answer, and every lease the decode
      produced either is that answer's or was given back. */
  lemma {:induction false} RaceLosesNothing(r: Race, events: seq<RaceEvent>)
    requires r == RUNNING || (r.settled && (r.rejected <==> r.resolved == []) && |r.resolved| <= 1)
    ensures var r' := SettleAll(r, events);
      && |r'.resolved| <= 1 && (r'.rejected ==> r'.resolved == [])
      && (r'.settled <==> r.settled || events != [])
      && multiset(Held(r'.resolved)) + multiset(r'.discarded) ==
         multiset(Held(r.resolved)) + multiset(r.discarded) + multiset(Leases(events))
    decreases |events|
  {
    hide Held, Leases, SettleAll;
    RaceStep(r, events);
    if events != [] {
      var r1 := Settle(r, events[0]);
      SettleKeeps(r, events[0]);
      RaceLosesNothing(r1, events[1..]);
      var before, gained, later := multiset(Held(r.resolved)) + multiset(r.discarded), multiset(LeaseOf(events[0])),
        multiset(Leases(events[1..]));
      assert before + (gained + later) == (before + gained) + later;
    }
  }

  function LeaseOf(e: RaceEvent): seq<nat> { if e.Completed? && e.lease.Some? then [e.lease.value] else [] }

  lemma RaceStep(r: Race, events: seq<RaceEvent>)
    ensures events == [] ==> SettleAll(r, events) == r && Leases(events) == []
    ensures events != [] ==> SettleAll(r, events) == SettleAll(Settle(r, events[0]), events[1..])
    ensures events != [] ==> multiset(Leases(events)) == multiset(LeaseOf(events[0])) + multiset(Leases(events[1..]))
  {
  }

  lemma SettleKeeps(r: Race, e: RaceEvent)
    ensures multiset(Held(Settle(r, e).resolved)) + multiset(Settle(r, e).discarded)
      == multiset(Held(r.resolved)) + multiset(r.discarded) + multiset(LeaseOf(e))
  {
    if e.Completed? { HeldSnoc(r.resolved, e.lease); }
  }

  lemma {:induction false} SettledForGood(r: Race, events: seq<RaceEvent>)
    requires r.settled
    ensures SettleAll(r, events) == r.(discarded := r.discarded + Leases(events))
    decreases |events|
  {
    if events == [] {
      assert r.discarded + [] == r.discarded;
    } else {
      SettledForGood(Settle(r, events[0]), events[1..]);
      assert r.discarded + (LeaseOf(events[0]) + Leases(events[1..]))
        == r.discarded + LeaseOf(events[0]) + Leases(events[1..]);
    }
  }

  /** The first event decides: a completion is the answer, anything else is a rejection, and every later
      completion gives its lease back. */
  lemma FirstEventDecides(events: seq<RaceEvent>)
    requires events != []
    ensures SettleAll(RUNNING, events) ==
      if events[0].Completed? then Race(true, false, [events[0].lease], Leases(events[1..]))
      else Race(true, true, [], Leases(events))
  {
    SettledForGood(Settle(RUNNING, events[0]), events[1..]);
    assert [] + Leases(events[1..]) == Leases(events[1..]);
  }

  // ---------------------------------------------------------------- the one-shot delivery

  datatype DeliveryState = DeliveryPending | DeliveryPrepared | Committing | Committed | DeliveryFailed

  /** What an arbitrary consumer returns, and what an arbitrary prepared commit answers. */
  datatype Plan = ThisPlan | OtherPlan | Thenable | Threw

  datatype CommitAnswer = LiteralTrue | NotTrue | ThenableAnswer | CommitThrew

  /** `commits`, `returned` and `answer` are history: how often the commit ran, what the consumer returned, and
      what the commit answered. */
  class PreparedDecodedDelivery {
    var state: DeliveryState
    ghost var commits: nat
    ghost var returned: Option<Plan>
    ghost var answer: Option<CommitAnswer>

    constructor ()
      ensures state == DeliveryPending && commits == 0 && returned == None && answer == None
    {
      state, commits, returned, answer := DeliveryPending, 0, None, None;
    }

    method Prepare() returns (ok: bool)
      modifies `state
      ensures ok <==> old(state) == DeliveryPending
      ensures state == if ok then DeliveryPrepared else old(state)
    {
      ok := state == DeliveryPending;
      if ok { state := DeliveryPrepared; }
    }

    method IsExactPlan(plan: Plan) returns (exact: bool)
      ensures exact <==> plan == ThisPlan && state == DeliveryPrepared
    {
      exact := plan == ThisPlan && state == DeliveryPrepared;
    }

    /** Runs the prepared commit once; only literal true counts. The commit may adopt the transfer, whatever
        it answers then. */
    method Commit(transfer: PayloadTransfer?) returns (ok: bool)
      requires transfer != null ==> transfer.state == TransferPending && transfer.Idle()
      modifies `state, `commits, `answer, transfer
      ensures old(state) != DeliveryPrepared ==>
        !ok && state == old(state) && commits == old(commits) && answer == old(answer)
      ensures old(state) == DeliveryPrepared ==>
        && commits == old(commits) + 1 && answer.Some? && (ok <==> answer == Some(LiteralTrue))
        && state == if ok then Committed else DeliveryFailed
      ensures transfer != null ==>
        transfer.Idle() && (transfer.state == TransferPending || transfer.state == TransferAdopted)
      ensures transfer != null && old(state) != DeliveryPrepared ==> transfer.state == TransferPending
    {
      if state != DeliveryPrepared { return false; }
      state := Committing;
      var answered := RunCommit(transfer);
      commits, answer := commits + 1, Some(answered);
      ok := answered == LiteralTrue;
      state := if ok then Committed else DeliveryFailed;
    }
  }

  /** Any synchronous commit: it may adopt the transfer or file it away, and answer what it likes. */
  method RunCommit(transfer: PayloadTransfer?) returns (answer: CommitAnswer)
    requires transfer != null ==> transfer.state == TransferPending && transfer.Idle()
    modifies transfer
    ensures transfer != null ==>
      transfer.Idle() && (transfer.state == TransferPending || transfer.state == TransferAdopted)
  {
    if transfer != null {
      var adopts: bool := *;
      if adopts {
        var begun := transfer.BeginAdopt();
        var accepted: bool := *;
        transfer.EndAdopt(accepted);
      }
    }
    answer := *;
  }

  /** Any consumer: it may prepare the delivery, several times even, and return what it likes. */
  method RunConsumer(delivery: PreparedDecodedDelivery) returns (plan: Plan)
    requires delivery.state == DeliveryPending
    modifies delivery`state, delivery`returned
    ensures delivery.state == DeliveryPending || delivery.state == DeliveryPrepared
    ensures delivery.returned == Some(plan)
  {
    var prepares: bool := *;
    if prepares {
      var _ := delivery.Prepare();
      var again: bool := *;
      if again { var _ := delivery.Prepare(); }
    }
    plan := *;
    delivery.returned := Some(plan);
  }

  // ---------------------------------------------------------------- the host

  /** Whether this spawn and this pending request are still the current ones; once lost they stay lost.
      `checks` is history: what every look at them found. */
  class HostView {
    var ownsSpawn: bool
    var pendingIsCurrent: bool
    ghost var checks: seq<bool>

    /** An unsolicited frame depends on the spawn only. */
    const watchesPending: bool

    constructor (watchesPending: bool)
      ensures ownsSpawn && pendingIsCurrent && checks == [] && this.watchesPending == watchesPending
    {
      this.watchesPending := watchesPending;
      ownsSpawn, pendingIsCurrent, checks := true, true, [];
    }

    predicate Current()
      reads this
    {
      ownsSpawn && (watchesPending ==> pendingIsCurrent)
    }

    /** `isCurrent()`. */
    method Check() returns (current: bool)
      modifies `checks
      ensures current == Current() && checks == old(checks) + [current]
    {
      current := ownsSpawn && (!watchesPending || pendingIsCurrent);
      checks := checks + [current];
    }

    /** Anything may happen while the host awaits: the process exits, the request times out. */
    method Await()
      modifies `ownsSpawn, `pendingIsCurrent
      ensures !old(ownsSpawn) ==> !ownsSpawn
      ensures !old(pendingIsCurrent) ==> !pendingIsCurrent
    {
      var exits: bool := *;
      var expires: bool := *;
      if exits { ownsSpawn := false; }
      if expires { pendingIsCurrent := false; }
    }
  }

  datatype DeliveryResult = Accepted | Stale | Failed

  /** The holds of a lease are released, all of them once, last first. */
  twostate predicate GaveBack(store: HoldReleaser, holds: seq<Hold>)
    reads store
  {
    && |store.attempts| == |old(store.attempts)| + |holds| && old(store.attempts) <= store.attempts
    && Tried(store.attempts[|old(store.attempts)|..]) == Reversed(holds)
  }

  method ReleaseOutcome(lease: PayloadLease?, store: HoldReleaser, host: HostView)
    requires lease != null ==> lease.state == Provisional
    modifies lease, store, host`ownsSpawn, host`pendingIsCurrent
    ensures lease != null ==> lease.state == LeaseReleased && GaveBack(store, lease.holds)
    ensures lease == null ==> store.attempts == old(store.attempts)
    ensures !old(host.ownsSpawn) ==> !host.ownsSpawn
    ensures !old(host.pendingIsCurrent) ==> !host.pendingIsCurrent
  {
    if lease != null { var _ := lease.Release(store); }
    host.Await();
  }

  /** The consumer prepared this delivery and returned it. */
  ghost predicate ReturnedExactly(delivery: PreparedDecodedDelivery)
    reads delivery
  {
    delivery.returned == Some(ThisPlan) && delivery.state != DeliveryPending
  }

  /** `consumeDecodedOutcome`. It accepts if and only if the consumer returned exactly the delivery it prepared,
      both looks at the host found it current, and the commit answered literal true. The host is looked at
      only for an exact plan, and the commit runs only when both looks found it current. A lease-bearing
      outcome ends in one of three ways: the plan was committed, once, and nothing was released; or all holds
      were given back, once, and no commit succeeded; or a commit that failed had already adopted the transfer,
      which then keeps it. */
  method ConsumeDecodedOutcome(lease: PayloadLease?, store: HoldReleaser, host: HostView)
    returns (result: DeliveryResult, delivery: PreparedDecodedDelivery, transfer: PayloadTransfer?,
      ghost looks: seq<bool>)
    requires lease != null ==> lease.state == Provisional
    modifies lease, store, host
    ensures fresh(delivery) && (transfer != null ==> fresh(transfer) && lease != null && transfer.holds == lease.holds)
    ensures host.checks == old(host.checks) + looks && looks in {[], [false], [true, false], [true, true]}
    ensures looks != [] <==> ReturnedExactly(delivery)
    ensures delivery.commits == if looks == [true, true] then 1 else 0
    ensures delivery.answer.Some? <==> delivery.commits == 1
    ensures result == Accepted <==>
      ReturnedExactly(delivery) && looks == [true, true] && delivery.answer == Some(LiteralTrue)
    ensures result == Stale <==> looks == [false] || looks == [true, false]
    ensures result == Accepted <==> delivery.state == Committed
    ensures result == Accepted ==> store.attempts == old(store.attempts) && host.Current()
    ensures result == Accepted && lease != null ==>
      transfer != null && transfer.state in {TransferPending, TransferAdopted}
    ensures result != Accepted && lease != null ==>
      || GaveBack(store, lease.holds)
      || (store.attempts == old(store.attempts) && delivery.commits == 1 && transfer != null &&
        transfer.state == TransferAdopted)
    ensures lease == null ==> store.attempts == old(store.attempts)
    ensures !old(host.ownsSpawn) ==> !host.ownsSpawn
    ensures !old(host.pendingIsCurrent) ==> !host.pendingIsCurrent
  {
    delivery := new PreparedDecodedDelivery();
    transfer, looks := null, [];
    var plan := RunConsumer(delivery);
    if plan == Threw || plan == Thenable {
      ReleaseOutcome(lease, store, host);
      return Failed, delivery, transfer, looks;
    }
    var exact := delivery.IsExactPlan(plan);
    if !exact {
      ReleaseOutcome(lease, store, host);
      return Failed, delivery, transfer, looks;
    }
    var current := host.Check();
    looks := [current];
    if !current {
      ReleaseOutcome(lease, store, host);
      return Stale, delivery, transfer, looks;
    }
    if lease != null { transfer := lease.TransferOnce(0); }
    host.Await();
    current := host.Check();
    looks := [true, current];
    if !current {
      if transfer != null { var _ := transfer.Release(store); }
      host.Await();
      return Stale, delivery, transfer, looks;
    }
    var ok := delivery.Commit(transfer);
    if !ok {
      if transfer != null { var _ := transfer.Release(store); }
      host.Await();
      return Failed, delivery, transfer, looks;
    }
    result := Accepted;
  }

  datatype Reply = NoReply | Resolved | Rejected

  /** `handleDecodedPendingResponse`, from the outcome of the decode on. A request is answered if and only if
      it awaits a decoded response, its consumer returned exactly the delivery, the commit answered literal
      true, and all four looks at the host found it current; so a response becomes visible only after its holds
      have found an owner, and only to the request it belongs to. */
  method HandleDecodedPendingResponse(decoded: bool, lease: PayloadLease?, store: HoldReleaser, host: HostView)
    returns (reply: Reply, delivery: PreparedDecodedDelivery?, transfer: PayloadTransfer?, ghost looks: seq<bool>)
    requires host.watchesPending
    requires lease != null ==> lease.state == Provisional
    modifies lease, store, host
    ensures host.checks == old(host.checks) + looks && looks != []
    ensures delivery != null <==> decoded && looks[0]
    ensures reply == Resolved <==>
      && delivery != null && ReturnedExactly(delivery) && delivery.answer == Some(LiteralTrue)
      && looks == [true, true, true, true]
    ensures reply == Resolved ==> delivery.state == Committed && delivery.commits == 1 && host.Current()
    ensures delivery != null ==> delivery.commits <= 1
    ensures transfer != null ==> fresh(transfer)
    ensures lease != null ==>
      || (delivery != null && delivery.state == Committed && store.attempts == old(store.attempts))
      || (GaveBack(store, lease.holds) && (delivery != null ==> delivery.state != Committed))
      || (store.attempts == old(store.attempts) && transfer != null && transfer.state == TransferAdopted)
  {
    reply, delivery, transfer := NoReply, null, null;
    host.Await();
    var current := host.Check();
    looks := [current];
    if !current || !decoded {
      ReleaseOutcome(lease, store, host);
      return;
    }
    var result;
    ghost var found;
    result, delivery, transfer, found := ConsumeDecodedOutcome(lease, store, host);
    looks := [true] + found;
    if result != Accepted { return; }
    // the call itself is awaited
    host.Await();
    current := host.Check();
    looks := [true, true, true, current];
    if !current { return; }
    reply := Resolved;
  }

  datatype Frame = Ignored | Event | ExtensionUi

  /** `deliverUnsolicited`: a frame is delivered if and only if it is not to be ignored, has a consumer, which
      returned exactly the delivery, the spawn was owned at all three looks, and the commit answered literal
      true. A frame nobody wants gives its holds back as well. */
  method DeliverUnsolicited(frame: Frame, hasConsumer: bool, lease: PayloadLease?, store: HoldReleaser, host: HostView)
    returns (delivered: bool, delivery: PreparedDecodedDelivery?, transfer: PayloadTransfer?, ghost looks: seq<bool>)
    requires !host.watchesPending
    requires lease != null ==> lease.state == Provisional
    modifies lease, store, host
    ensures host.checks == old(host.checks) + looks && looks != [] && looks[0] == old(host.ownsSpawn)
    ensures delivered <==>
      && delivery != null && ReturnedExactly(delivery) && delivery.answer == Some(LiteralTrue)
      && looks == [true, true, true]
    ensures delivery != null <==> old(host.ownsSpawn) && frame != Ignored && hasConsumer
    ensures transfer != null ==> fresh(transfer)
    ensures delivered ==> store.attempts == old(store.attempts)
    ensures !delivered && lease != null ==>
      || GaveBack(store, lease.holds)
      || (store.attempts == old(store.attempts) && transfer != null && transfer.state == TransferAdopted)
    ensures delivered && lease != null ==> transfer != null && transfer.state in {TransferPending, TransferAdopted}
  {
    delivered, delivery, transfer := false, null, null;
    var owns := host.Check();
    looks := [owns];
    if !owns || frame == Ignored || !hasConsumer {
      ReleaseOutcome(lease, store, host);
      return;
    }
    var result;
    ghost var found;
    result, delivery, transfer, found := ConsumeDecodedOutcome(lease, store, host);
    looks := [true] + found;
    delivered := result == Accepted;
  }
}

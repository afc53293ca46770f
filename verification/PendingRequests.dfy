/** Pending requests of the Pi host: ids chosen by callers on one side, ids on the wire on the other. */
module PendingRequests {
  import opened Prelude

  type WireId = nat

  /** The host's own ids count up; a caller may choose any id, of either shape. */
  datatype PublicId = Web(n: nat) | Chosen(name: string)

  datatype Request = Request(publicId: PublicId, command: string)

  /** The two maps and the two counters; `sent` is history: the request each wire id was given to. */
  datatype Requests = Requests(pending: map<WireId, Request>, publicIds: map<PublicId, WireId>, lastPublic: nat,
                               lastWire: nat, sent: map<WireId, Request>)

  const NONE_PENDING := Requests(map[], map[], 0, 0, map[])

  function Send(r: Requests, publicId: PublicId, command: string): Option<(Requests, WireId)> {
    if publicId in r.publicIds then None
    else
      var wire := r.lastWire + 1;
      var request := Request(publicId, command);
      Some((r.(pending := r.pending[wire := request], publicIds := r.publicIds[publicId := wire], lastWire := wire,
               sent := r.sent[wire := request]), wire))
  }

  /** `deletePending`, called for a response, a timeout or a failed write: each map is changed only if it
      still has what the caller saw. */
  function Delete(r: Requests, wire: WireId, request: Request): Requests {
    r.(pending := if wire in r.pending && r.pending[wire] == request then r.pending - {wire} else r.pending,
       publicIds := if request.publicId in r.publicIds && r.publicIds[request.publicId] == wire then
         r.publicIds - {request.publicId} else r.publicIds)
  }

  function AllRejected(r: Requests): Requests { r.(pending := map[], publicIds := map[]) }

  datatype Action =
    | SendRequest(publicId: PublicId, command: string)
    | DeletePending(wire: WireId)
    | RejectEverything
    | DrawPublicId(next: nat)

  /** A deletion names a wire id and the request that was sent with it, however late it comes. */
  predicate Can(r: Requests, a: Action) {
    match a
    case SendRequest(_, _) => true
    case DeletePending(wire) => wire in r.sent
    case RejectEverything => true
    case DrawPublicId(next) => r.lastPublic < next
  }

  function Do(r: Requests, a: Action): Requests
    requires Can(r, a)
  {
    match a
    case SendRequest(p, c) => (match Send(r, p, c) case None => r case Some((r', _)) => r')
    case DeletePending(wire) => Delete(r, wire, r.sent[wire])
    case RejectEverything => AllRejected(r)
    case DrawPublicId(next) => r.(lastPublic := next)
  }

  ghost predicate IsRun(states: seq<Requests>, actions: seq<Action>) {
    && |states| == |actions| + 1
    && states[0] == NONE_PENDING
    && forall i :: 0 <= i < |actions| ==> Can(states[i], actions[i]) && states[i + 1] == Do(states[i], actions[i])
  }

  /** Wire ids and public ids of pending requests belong to each other one to one. */
  ghost predicate Bijection(r: Requests) {
    && (forall w :: w in r.pending ==> r.pending[w].publicId in r.publicIds && r.publicIds[r.pending[w].publicId] == w)
    && (forall p :: p in r.publicIds ==> r.publicIds[p] in r.pending && r.pending[r.publicIds[p]].publicId == p)
  }

  ghost predicate Sent(r: Requests) {
    && (forall w :: w in r.sent ==> w <= r.lastWire)
    && (forall w :: w in r.pending ==> w in r.sent && r.sent[w] == r.pending[w])
  }

  lemma StepKeeps(r: Requests, a: Action)
    requires Bijection(r) && Sent(r) && Can(r, a)
    ensures Bijection(Do(r, a)) && Sent(Do(r, a))
  {
  }

  lemma {:induction false} RunInv(states: seq<Requests>, actions: seq<Action>, i: nat)
    requires IsRun(states, actions) && i <= |actions|
    ensures Bijection(states[i]) && Sent(states[i])
  {
    hide Do, Can, Bijection, Sent;
    if i > 0 {
      RunInv(states, actions, i - 1);
      StepKeeps(states[i - 1], actions[i - 1]);
    } else {
      NoneKeeps();
    }
  }

  lemma NoneKeeps()
    ensures Bijection(NONE_PENDING) && Sent(NONE_PENDING)
  {
  }

  /** In every reachable state two pending requests differ in both ids. */
  lemma PendingIdsAreOneToOne(states: seq<Requests>, actions: seq<Action>, i: nat, v: WireId, w: WireId)
    requires IsRun(states, actions) && i <= |actions|
    requires v in states[i].pending && w in states[i].pending
    ensures v == w <==> states[i].pending[v].publicId == states[i].pending[w].publicId
  {
    hide Do, Can;
    RunInv(states, actions, i);
  }

  lemma StepKeepsSent(r: Requests, a: Action, w: WireId)
    requires Sent(r) && Can(r, a) && w in r.sent
    ensures w in Do(r, a).sent && Do(r, a).sent[w] == r.sent[w]
  {
  }

  /** A wire id means the same request for ever: a response, a timeout or a failed write that comes late
      never touches another request, even one that reuses the public id. */
  lemma {:induction false} WireIdIsNeverReused(states: seq<Requests>, actions: seq<Action>, i: nat, j: nat, w: WireId)
    requires IsRun(states, actions) && i <= j <= |actions| && w in states[i].sent
    ensures w in states[j].sent && states[j].sent[w] == states[i].sent[w]
    ensures w in states[j].pending ==> states[j].pending[w] == states[i].sent[w]
    decreases j
  {
    hide Do, Can;
    RunInv(states, actions, j);
    if i < j {
      WireIdIsNeverReused(states, actions, i, j - 1, w);
      RunInv(states, actions, j - 1);
      StepKeepsSent(states[j - 1], actions[j - 1], w);
    }
  }

  lemma SpareIn(r: Requests, a: Action, w: WireId)
    requires Bijection(r) && Sent(r) && Can(r, a) && a.DeletePending? && w in r.pending && w != a.wire
    ensures w in Do(r, a).pending && Do(r, a).pending[w] == r.pending[w]
    ensures r.pending[w].publicId in Do(r, a).publicIds && Do(r, a).publicIds[r.pending[w].publicId] == w
  {
  }

  /** A late deletion for a settled request leaves every other pending request as it is. */
  lemma LateDeletionSparesOthers(states: seq<Requests>, actions: seq<Action>, i: nat, w: WireId)
    requires IsRun(states, actions) && i < |actions|
    requires actions[i].DeletePending? && w in states[i].pending && w != actions[i].wire
    ensures w in states[i + 1].pending && states[i + 1].pending[w] == states[i].pending[w]
    ensures states[i].pending[w].publicId in states[i + 1].publicIds
    ensures states[i + 1].publicIds[states[i].pending[w].publicId] == w
  {
    hide Do, Can, Bijection, Sent;
    RunInv(states, actions, i);
    RunInv(states, actions, i + 1);
    SpareIn(states[i], actions[i], w);
  }

  // ---------------------------------------------------------------- what a deletion and a rejection do

  /** Once settled, a request is pending in no later state. */
  lemma {:induction false} SettledStaysSettled(states: seq<Requests>, actions: seq<Action>, i: nat, j: nat, w: WireId)
    requires IsRun(states, actions) && i < j <= |actions|
    requires actions[i] == DeletePending(w) || (actions[i] == RejectEverything && w in states[i].sent)
    ensures w in states[j].sent && w !in states[j].pending
    decreases j
  {
    hide Do, Can, Bijection;
    RunStep(states, actions, j - 1);
    RunInv(states, actions, j - 1);
    if j == i + 1 {
      SettledNow(states[i], actions[i], w);
    } else {
      SettledStaysSettled(states, actions, i, j - 1, w);
      NotSentAgain(states[j - 1], actions[j - 1], w);
    }
  }

  lemma RunStep(states: seq<Requests>, actions: seq<Action>, i: nat)
    requires IsRun(states, actions) && i < |actions|
    ensures Can(states[i], actions[i]) && states[i + 1] == Do(states[i], actions[i])
  {
  }

  lemma SettledNow(r: Requests, a: Action, w: WireId)
    requires Sent(r) && Can(r, a) && (a == DeletePending(w) || (a == RejectEverything && w in r.sent))
    ensures w in Do(r, a).sent && w !in Do(r, a).pending
  {
  }

  lemma NotSentAgain(r: Requests, a: Action, w: WireId)
    requires Sent(r) && Can(r, a) && w in r.sent && w !in r.pending
    ensures w in Do(r, a).sent && w !in Do(r, a).pending
  {
  }

  /** In every reachable state a public id can be sent if and only if no pending request has it, and the
      request is then pending under a wire id that was never used. */
  lemma SendableIff(states: seq<Requests>, actions: seq<Action>, i: nat, p: PublicId, command: string)
    requires IsRun(states, actions) && i <= |actions|
    ensures Send(states[i], p, command).Some?
      <==> forall w :: w in states[i].pending ==> states[i].pending[w].publicId != p
    ensures Send(states[i], p, command).Some? ==>
      var (r, w) := Send(states[i], p, command).value;
      w !in states[i].sent && w in r.pending && r.pending[w] == Request(p, command)
  {
    hide Do, Can;
    RunInv(states, actions, i);
  }

  /** So a settled request blocks nobody: right after its deletion its public id is free again. */
  lemma SettledIdIsFree(states: seq<Requests>, actions: seq<Action>, i: nat, w: WireId, command: string)
    requires IsRun(states, actions) && i < |actions| && actions[i] == DeletePending(w) && w in states[i].pending
    ensures Send(states[i + 1], states[i].pending[w].publicId, command).Some?
  {
    hide Do, Can, Bijection, Sent, Send;
    var p, after := states[i].pending[w].publicId, states[i + 1].pending;
    SendableIff(states, actions, i + 1, p, command);
    SettledStaysSettled(states, actions, i, i + 1, w);
    forall v | v in after ensures after[v].publicId != p {
      RunStep(states, actions, i);
      OnlyDeletes(states[i], w);
      PendingIdsAreOneToOne(states, actions, i, v, w);
    }
  }

  lemma OnlyDeletes(r: Requests, w: WireId)
    requires Can(r, DeletePending(w))
    ensures forall v :: v in Do(r, DeletePending(w)).pending ==>
      v in r.pending && Do(r, DeletePending(w)).pending[v] == r.pending[v]
  {
  }

  /** The host as an object. */
  class PendingMap {
    var pending: map<WireId, Request>
    var publicIds: map<PublicId, WireId>
    var lastPublic: nat
    var lastWire: nat
    ghost var sent: map<WireId, Request>

    ghost function State(): Requests reads this { Requests(pending, publicIds, lastPublic, lastWire, sent) }

    constructor ()
      ensures State() == NONE_PENDING
    {
      pending, publicIds, lastPublic, lastWire, sent := map[], map[], 0, 0, map[];
    }

    /** Counts on until the id is not in use; it ends because only finitely many ids are. */
    method NextPublicId() returns (id: PublicId)
      modifies `lastPublic
      ensures id == Web(lastPublic) && old(lastPublic) < lastPublic && id !in publicIds
      ensures forall n :: old(lastPublic) < n < lastPublic ==> Web(n) in publicIds
    {
      lastPublic := lastPublic + 1;
      ghost var passed: set<PublicId> := {};
      while Web(lastPublic) in publicIds
        invariant old(lastPublic) < lastPublic
        invariant forall n :: old(lastPublic) < n < lastPublic ==> Web(n) in publicIds
        invariant passed <= publicIds.Keys && forall n :: n >= lastPublic ==> Web(n) !in passed
        decreases |publicIds.Keys - passed|
      {
        CardinalityWithout(publicIds.Keys - passed, Web(lastPublic));
        assert publicIds.Keys - (passed + {Web(lastPublic)}) == publicIds.Keys - passed - {Web(lastPublic)};
        passed := passed + {Web(lastPublic)};
        lastPublic := lastPublic + 1;
      }
      id := Web(lastPublic);
    }

    /** Refused exactly when the public id is in use; otherwise the next wire id is given to the request. */
    method SendRaw(publicId: PublicId, command: string) returns (wire: Option<WireId>)
      modifies `pending, `publicIds, `lastWire, `sent
      ensures wire == (if publicId in old(publicIds) then None else Some(old(lastWire) + 1))
      ensures wire.None? ==> State() == old(State())
      ensures wire.Some? ==>
        && lastWire == wire.value && publicIds == old(publicIds)[publicId := wire.value]
        && pending == old(pending)[wire.value := Request(publicId, command)]
      ensures match Send(old(State()), publicId, command)
        case None => wire == None && State() == old(State())
        case Some((r, w)) => wire == Some(w) && State() == r
    {
      if publicId in publicIds { return None; }
      lastWire := lastWire + 1;
      var request := Request(publicId, command);
      pending := pending[lastWire := request];
      publicIds := publicIds[publicId := lastWire];
      sent := sent[lastWire := request];
      wire := Some(lastWire);
    }

    /** Afterwards the wire id does not lead to that request, nor the public id of the request to that wire
        id; an entry with anything else in it, and every other entry, is as before. */
    method DeleteRequest(wire: WireId, request: Request)
      modifies `pending, `publicIds
      ensures wire in pending <==> wire in old(pending) && old(pending[wire]) != request
      ensures request.publicId in publicIds
        <==> request.publicId in old(publicIds) && old(publicIds[request.publicId]) != wire
      ensures forall w :: w != wire ==> (w in pending <==> w in old(pending))
      ensures forall p :: p != request.publicId ==> (p in publicIds <==> p in old(publicIds))
      ensures forall w :: w in pending ==> pending[w] == old(pending)[w]
      ensures forall p :: p in publicIds ==> publicIds[p] == old(publicIds)[p]
      ensures State() == Delete(old(State()), wire, request)
    {
      if wire in pending && pending[wire] == request { pending := pending - {wire}; }
      if request.publicId in publicIds && publicIds[request.publicId] == wire {
        publicIds := publicIds - {request.publicId};
      }
    }

    /** The process is gone: nothing is pending any more. */
    method RejectAll()
      modifies `pending, `publicIds
      ensures pending == map[] && publicIds == map[]
      ensures State() == AllRejected(old(State()))
    {
      pending, publicIds := map[], map[];
    }
  }
}

/** Which session operations may be under way in one workspace: identity transitions, creations, deletions. */
module WorkspaceReservations {
  import opened Prelude

  type Workspace = string
  type SessionHandle = string
  type TicketId = nat

  /** What an operation in flight has reserved. */
  datatype Ticket =
    | TransitionTicket(workspace: Workspace)
    | CreationTicket(workspace: Workspace)
    | DeletionTicket(workspace: Workspace, handle: SessionHandle)

  /** The supervisor's three collections. */
  datatype Reservations = Reservations(
    transitions: set<Workspace>,
    creations: map<Workspace, nat>,
    deletions: map<SessionHandle, Workspace>)

  datatype Refusal =
    | WorkspaceSessionDeleting | WorkspaceIdentityTransitioning | WorkspaceCreationInProgress
    | WorkspaceActivationInProgress | SessionDeleting

  function Creations(r: Reservations, w: Workspace): nat { if w in r.creations then r.creations[w] else 0 }

  predicate HasDeletion(r: Reservations, w: Workspace) { exists h :: h in r.deletions && r.deletions[h] == w }

  predicate HasPendingIdentity(r: Reservations, w: Workspace) { w in r.transitions || Creations(r, w) > 0 }

  /** `reserveWorkspaceTransition`; `activating` tells whether some runtime of the workspace is starting. */
  function ReserveTransition(r: Reservations, w: Workspace, activating: bool): Result<Reservations, Refusal> {
    if HasDeletion(r, w) then Err(WorkspaceSessionDeleting)
    else if w in r.transitions then Err(WorkspaceIdentityTransitioning)
    else if Creations(r, w) > 0 then Err(WorkspaceCreationInProgress)
    else if activating then Err(WorkspaceActivationInProgress)
    else Ok(r.(transitions := r.transitions + {w}))
  }

  function ReleaseTransition(r: Reservations, w: Workspace): Reservations { r.(transitions := r.transitions - {w}) }

  /** `reserveWorkspaceCreation`: creations count, they do not exclude each other. */
  function ReserveCreation(r: Reservations, w: Workspace): Result<Reservations, Refusal> {
    if HasDeletion(r, w) then Err(WorkspaceSessionDeleting)
    else if w in r.transitions then Err(WorkspaceIdentityTransitioning)
    else Ok(r.(creations := r.creations[w := Creations(r, w) + 1]))
  }

  /** An entry that is missing counts as one, so that the difference is zero. */
  function ReleaseCreation(r: Reservations, w: Workspace): Reservations {
    var count: int := if w in r.creations then r.creations[w] else 1;
    var remaining: int := count - 1;
    r.(creations := if remaining > 0 then r.creations[w := remaining] else r.creations - {w})
  }

  /** The admission shared by deletion and abandoning. */
  function ReserveDeletion(r: Reservations, w: Workspace, h: SessionHandle): Result<Reservations, Refusal> {
    if h in r.deletions then Err(SessionDeleting)
    else if HasPendingIdentity(r, w) then Err(WorkspaceIdentityTransitioning)
    else Ok(r.(deletions := r.deletions[h := w]))
  }

  function ReleaseDeletion(r: Reservations, h: SessionHandle): Reservations { r.(deletions := r.deletions - {h}) }

  // ---------------------------------------------------------------- operations in flight

  /** `inFlight` are the operations that hold a reservation they have not given back. */
  datatype State = State(reservations: Reservations, inFlight: map<TicketId, Ticket>)

  datatype Action =
    | BeginTransition(id: TicketId, w: Workspace, activating: bool)
    | BeginCreation(id: TicketId, w: Workspace)
    | BeginDeletion(id: TicketId, w: Workspace, h: SessionHandle)
    | End(id: TicketId)

  function Reserve(r: Reservations, a: Action): Result<Reservations, Refusal>
    requires !a.End?
  {
    match a
    case BeginTransition(_, w, activating) => ReserveTransition(r, w, activating)
    case BeginCreation(_, w) => ReserveCreation(r, w)
    case BeginDeletion(_, w, h) => ReserveDeletion(r, w, h)
  }

  function TicketFor(a: Action): Ticket
    requires !a.End?
  {
    match a
    case BeginTransition(_, w, _) => TransitionTicket(w)
    case BeginCreation(_, w) => CreationTicket(w)
    case BeginDeletion(_, w, h) => DeletionTicket(w, h)
  }

  function GiveBack(r: Reservations, t: Ticket): Reservations {
    match t
    case TransitionTicket(w) => ReleaseTransition(r, w)
    case CreationTicket(w) => ReleaseCreation(r, w)
    case DeletionTicket(_, h) => ReleaseDeletion(r, h)
  }

  predicate Can(s: State, a: Action) { a.End? || a.id !in s.inFlight }

  /** A refused reservation changes nothing, and neither does a second release of the same ticket. */
  function Do(s: State, a: Action): State
    requires Can(s, a)
  {
    if a.End? then
      if a.id !in s.inFlight then s
      else State(GiveBack(s.reservations, s.inFlight[a.id]), s.inFlight - {a.id})
    else
      match Reserve(s.reservations, a)
      case Err(_) => s
      case Ok(r) => State(r, s.inFlight[a.id := TicketFor(a)])
  }

  predicate Init(s: State) { s == State(Reservations({}, map[], map[]), map[]) }

  ghost predicate IsRun(states: seq<State>, actions: seq<Action>) {
    && |states| == |actions| + 1
    && Init(states[0])
    && forall i :: 0 <= i < |actions| ==> Can(states[i], actions[i]) && states[i + 1] == Do(states[i], actions[i])
  }

  // ---------------------------------------------------------------- the invariant

  function CreationsInFlight(s: State, w: Workspace): set<TicketId> {
    set id | id in s.inFlight && s.inFlight[id] == CreationTicket(w)
  }

  predicate InFlight(s: State, id: TicketId, t: Ticket) { id in s.inFlight && s.inFlight[id] == t }

  ghost predicate TransitionsFaithful(s: State) {
    && (forall w :: w in s.reservations.transitions <==> exists id :: InFlight(s, id, TransitionTicket(w)))
    && (forall w, id, id' :: InFlight(s, id, TransitionTicket(w)) && InFlight(s, id', TransitionTicket(w)) ==>
         id == id')
  }

  ghost predicate CreationsFaithful(s: State) {
    forall w :: Creations(s.reservations, w) == |CreationsInFlight(s, w)|
  }

  predicate Deleting(r: Reservations, h: SessionHandle, w: Workspace) { h in r.deletions && r.deletions[h] == w }

  ghost predicate DeletionsFaithful(s: State) {
    && (forall h, w :: Deleting(s.reservations, h, w) <==> exists id :: InFlight(s, id, DeletionTicket(w, h)))
    && (forall h, w, w', id, id' ::
         InFlight(s, id, DeletionTicket(w, h)) && InFlight(s, id', DeletionTicket(w', h)) ==> id == id')
  }

  /** The collections say exactly which operations are in flight. */
  ghost predicate Faithful(s: State) { TransitionsFaithful(s) && CreationsFaithful(s) && DeletionsFaithful(s) }

  /** No transition with a creation or deletion, and no creation with a deletion, in one workspace. */
  ghost predicate Exclusive(s: State) {
    && (forall w :: w in s.reservations.transitions ==>
         Creations(s.reservations, w) == 0 && !HasDeletion(s.reservations, w))
    && (forall w :: Creations(s.reservations, w) > 0 ==> !HasDeletion(s.reservations, w))
  }

  lemma StepKeepsExclusive(s: State, a: Action)
    requires Exclusive(s) && Can(s, a)
    ensures Exclusive(Do(s, a))
  {
    var s' := Do(s, a);
    forall w | HasDeletion(s'.reservations, w)
      ensures HasDeletion(s.reservations, w) || (a.BeginDeletion? && a.w == w && !HasPendingIdentity(s.reservations, w))
    {
      var h :| h in s'.reservations.deletions && s'.reservations.deletions[h] == w;
      if h in s.reservations.deletions && s.reservations.deletions[h] == w { assert HasDeletion(s.reservations, w); }
    }
    if a.End? && a.id in s.inFlight {
      forall w ensures Creations(s'.reservations, w) <= Creations(s.reservations, w) {}
    }
  }

  /** How the operations in flight change: ticket `id` comes (`t` is new) or goes. */
  lemma InFlightAfter(s: State, a: Action, id: TicketId, t: Ticket)
    requires Can(s, a)
    ensures var began := !a.End? && Reserve(s.reservations, a).Ok?;
      InFlight(Do(s, a), id, t) <==>
        if id == a.id then (if a.End? then false else if began then t == TicketFor(a) else false)
        else InFlight(s, id, t)
  {
  }

  lemma StepKeepsTransitions(s: State, a: Action)
    requires Faithful(s) && Can(s, a)
    ensures TransitionsFaithful(Do(s, a))
  {
    hide Do, CreationsFaithful, DeletionsFaithful, InFlight;
    var s' := Do(s, a);
    forall id, t { InFlightAfter(s, a, id, t); }
    forall w ensures w in s'.reservations.transitions <==> exists id :: InFlight(s', id, TransitionTicket(w)) {
      TransitionsAfter(s, a, w);
      if w in s.reservations.transitions && w in s'.reservations.transitions {
        var id :| InFlight(s, id, TransitionTicket(w));
        Unticketed(s, a);
        assert InFlight(s', id, TransitionTicket(w));
      }
      if !a.End? && Reserve(s.reservations, a).Ok? && TicketFor(a) == TransitionTicket(w) {
        assert InFlight(s', a.id, TransitionTicket(w));
      }
    }
    forall w, id, id' | InFlight(s', id, TransitionTicket(w)) && InFlight(s', id', TransitionTicket(w))
      ensures id == id'
    {
      TransitionsAfter(s, a, w);
    }
  }

  lemma Unticketed(s: State, a: Action)
    requires Can(s, a)
    ensures !a.End? ==> forall t :: !InFlight(s, a.id, t)
  {
  }

  lemma TransitionsAfter(s: State, a: Action, w: Workspace)
    requires Can(s, a)
    ensures w in Do(s, a).reservations.transitions <==>
      || (w in s.reservations.transitions && !(a.End? && InFlight(s, a.id, TransitionTicket(w))))
      || (!a.End? && Reserve(s.reservations, a).Ok? && TicketFor(a) == TransitionTicket(w))
    ensures !a.End? && Reserve(s.reservations, a).Ok? && TicketFor(a) == TransitionTicket(w) ==>
      w !in s.reservations.transitions
  {
  }

  lemma CreationsAfter(s: State, a: Action, w: Workspace)
    requires Can(s, a)
    ensures var s' := Do(s, a);
      && (a.End? && InFlight(s, a.id, CreationTicket(w)) ==>
            Creations(s'.reservations, w) == if Creations(s.reservations, w) > 0 then Creations(s.reservations, w) - 1
              else 0)
      && (!a.End? && Reserve(s.reservations, a).Ok? && TicketFor(a) == CreationTicket(w) ==>
            Creations(s'.reservations, w) == Creations(s.reservations, w) + 1)
      && (!(a.End? && InFlight(s, a.id, CreationTicket(w)))
          && !(!a.End? && Reserve(s.reservations, a).Ok? && TicketFor(a) == CreationTicket(w)) ==>
            Creations(s'.reservations, w) == Creations(s.reservations, w))
  {
  }

  lemma StepKeepsCreations(s: State, a: Action)
    requires Faithful(s) && Can(s, a)
    ensures CreationsFaithful(Do(s, a))
  {
    hide Do, TransitionsFaithful, DeletionsFaithful, InFlight, Creations;
    var s' := Do(s, a);
    forall w ensures Creations(s'.reservations, w) == |CreationsInFlight(s', w)| {
      CreationsAfter(s, a, w);
      CreationSetAfter(s, a, w);
      CardinalityWithout(CreationsInFlight(s, w), a.id);
    }
  }

  lemma CreationSetAfter(s: State, a: Action, w: Workspace)
    requires Can(s, a)
    ensures CreationsInFlight(Do(s, a), w) ==
      if a.End? then CreationsInFlight(s, w) - {a.id}
      else if Reserve(s.reservations, a).Ok? && TicketFor(a) == CreationTicket(w) then CreationsInFlight(s, w) + {a.id}
      else CreationsInFlight(s, w)
    ensures !a.End? ==> a.id !in CreationsInFlight(s, w)
    ensures a.End? ==> (a.id in CreationsInFlight(s, w) <==> InFlight(s, a.id, CreationTicket(w)))
  {
  }

  lemma DeletionsAfter(s: State, a: Action, h: SessionHandle, w: Workspace)
    requires Can(s, a)
    ensures Deleting(Do(s, a).reservations, h, w) <==>
      || (Deleting(s.reservations, h, w) && !(a.End? && exists w' :: InFlight(s, a.id, DeletionTicket(w', h))))
      || (!a.End? && Reserve(s.reservations, a).Ok? && TicketFor(a) == DeletionTicket(w, h))
    ensures !a.End? && Reserve(s.reservations, a).Ok? && TicketFor(a) == DeletionTicket(w, h) ==>
      forall w' :: !Deleting(s.reservations, h, w')
  {
  }

  lemma StepKeepsDeletions(s: State, a: Action)
    requires Faithful(s) && Can(s, a)
    ensures DeletionsFaithful(Do(s, a))
  {
    hide Do, TransitionsFaithful, CreationsFaithful, InFlight, Deleting, Reserve;
    var s' := Do(s, a);
    forall id, t { InFlightAfter(s, a, id, t); }
    Unticketed(s, a);
    forall h, w ensures Deleting(s'.reservations, h, w) <==> exists id :: InFlight(s', id, DeletionTicket(w, h)) {
      DeletionsAfter(s, a, h, w);
      if Deleting(s.reservations, h, w) {
        var id :| InFlight(s, id, DeletionTicket(w, h));
        assert id != a.id ==> InFlight(s', id, DeletionTicket(w, h));
      }
      if !a.End? && Reserve(s.reservations, a).Ok? && TicketFor(a) == DeletionTicket(w, h) {
        assert InFlight(s', a.id, DeletionTicket(w, h));
      }
    }
    forall h, w, w', id, id' | InFlight(s', id, DeletionTicket(w, h)) && InFlight(s', id', DeletionTicket(w', h))
      ensures id == id'
    {
      DeletionsAfter(s, a, h, w);
      DeletionsAfter(s, a, h, w');
    }
  }

  lemma StepKeepsFaithful(s: State, a: Action)
    requires Faithful(s) && Can(s, a)
    ensures Faithful(Do(s, a))
  {
    hide Do, Can, TransitionsFaithful, CreationsFaithful, DeletionsFaithful;
    StepKeepsTransitions(s, a);
    StepKeepsCreations(s, a);
    StepKeepsDeletions(s, a);
  }

  lemma {:induction false} RunInv(states: seq<State>, actions: seq<Action>, i: nat)
    requires IsRun(states, actions) && i <= |actions|
    ensures Faithful(states[i]) && Exclusive(states[i])
  {
    hide Do, Can, Faithful, Exclusive;
    if i > 0 {
      RunInv(states, actions, i - 1);
      StepKeepsExclusive(states[i - 1], actions[i - 1]);
      StepKeepsFaithful(states[i - 1], actions[i - 1]);
    } else {
      InitInv(states[0]);
    }
  }

  lemma InitInv(s: State)
    requires Init(s)
    ensures Faithful(s) && Exclusive(s)
  {
    forall w ensures CreationsInFlight(s, w) == {} {}
  }

  // ---------------------------------------------------------------- over whole runs

  /** Whether operations with these two tickets may overlap. */
  predicate Compatible(t: Ticket, u: Ticket) {
    || t.workspace != u.workspace
    || (t.CreationTicket? && u.CreationTicket?)
    || (t.DeletionTicket? && u.DeletionTicket? && t.handle != u.handle)
  }

  /** In every reachable state of every run, two different operations in flight in one workspace are two
      creations, or deletions of two different sessions; a transition is always alone. */
  lemma OperationsExclude(states: seq<State>, actions: seq<Action>, i: nat, id: TicketId, id': TicketId)
    requires IsRun(states, actions) && i <= |actions|
    requires id in states[i].inFlight && id' in states[i].inFlight && id != id'
    ensures Compatible(states[i].inFlight[id], states[i].inFlight[id'])
  {
    hide Do, Can;
    RunInv(states, actions, i);
    var s := states[i];
    var t, u := s.inFlight[id], s.inFlight[id'];
    if t.workspace == u.workspace {
      assert InFlight(s, id, t) && InFlight(s, id', u);
      Counted(s, id);
      Counted(s, id');
    }
  }

  /** What the collections say because ticket `id` is in flight. */
  lemma Counted(s: State, id: TicketId)
    requires Faithful(s) && id in s.inFlight
    ensures match s.inFlight[id]
      case TransitionTicket(w) => w in s.reservations.transitions
      case CreationTicket(w) => Creations(s.reservations, w) > 0
      case DeletionTicket(w, h) => HasDeletion(s.reservations, w) && h in s.reservations.deletions
  {
    assert InFlight(s, id, s.inFlight[id]);
    if s.inFlight[id].DeletionTicket? {
      assert Deleting(s.reservations, s.inFlight[id].handle, s.inFlight[id].workspace);
    }
    if s.inFlight[id].CreationTicket? {
      assert id in CreationsInFlight(s, s.inFlight[id].workspace);
    }
  }

  lemma DeletionsHaveTickets(s: State, w: Workspace, h: SessionHandle)
    requires Faithful(s)
    ensures HasDeletion(s.reservations, w) ==> exists id, k :: InFlight(s, id, DeletionTicket(w, k))
    ensures h in s.reservations.deletions ==> exists id, v :: InFlight(s, id, DeletionTicket(v, h))
  {
    if HasDeletion(s.reservations, w) {
      var k :| k in s.reservations.deletions && s.reservations.deletions[k] == w;
      assert Deleting(s.reservations, k, w);
    }
    if h in s.reservations.deletions { assert Deleting(s.reservations, h, s.reservations.deletions[h]); }
  }

  /** A workspace with nothing in flight accepts any operation again: no reservation is ever leaked. */
  lemma NothingLeaks(states: seq<State>, actions: seq<Action>, i: nat, w: Workspace, h: SessionHandle)
    requires IsRun(states, actions) && i <= |actions|
    requires forall id :: id in states[i].inFlight ==>
      states[i].inFlight[id].workspace != w &&
        (states[i].inFlight[id].DeletionTicket? ==> states[i].inFlight[id].handle != h)
    ensures ReserveTransition(states[i].reservations, w, false).Ok?
    ensures ReserveCreation(states[i].reservations, w).Ok?
    ensures ReserveDeletion(states[i].reservations, w, h).Ok?
  {
    hide Do, Can, Exclusive;
    RunInv(states, actions, i);
    var s := states[i];
    assert CreationsInFlight(s, w) == {};
    DeletionsHaveTickets(s, w, h);
  }
}

/** The fenced leases of the session supervisor: one lease per session handle, changed only inside the
    lease actor, while runtimes are tracked, restarted, rekeyed and forgotten around it. */
module SessionLeases {
  import opened Prelude

  type Handle = string
  type Connection = string
  type Token = nat
  type RuntimeId = nat

  /** `Number.MAX_SAFE_INTEGER`, the last revision a lease can reach. */
  const LAST_REVISION: nat := 9007199254740991

  datatype LeaseHolder = LeaseHolder(connection: Connection, token: Token)

  datatype Lease = Lease(generation: nat, revision: nat, holder: Option<LeaseHolder>, terminal: bool)

  datatype Runtime = Runtime(handle: Handle, generation: nat)

  /** What a lease commit announces. */
  datatype Commit = Commit(handle: Handle, generation: nat, revision: nat, holder: Option<LeaseHolder>)

  /** A handle together with a process generation: the domain in which revisions count. */
  datatype Domain = Domain(handle: Handle, generation: nat)

  /** Who is inside the pool lock across an await that ends in the lease actor. */
  datatype Pool = Free | Claiming(id: RuntimeId) | Rekeying(from: Handle, id: RuntimeId) | Forgetting(handle: Handle)

  /** `minted`, `spent` and `log` are history: all fencing tokens ever drawn, all domains ever given to a
      runtime, and all commits in order. */
  datatype State = State(
    leases: map<Handle, Lease>,
    tracked: map<Handle, RuntimeId>,
    runtimes: map<RuntimeId, Runtime>,
    pool: Pool,
    minted: set<Token>,
    spent: set<Domain>,
    log: seq<Commit>)

  // ---------------------------------------------------------------- the lease actor

  function FreshLease(generation: nat): Lease { Lease(generation, 0, None, false) }

  /** `leaseStateFor`: a generation is an identity fence, so another one starts over and ownerless. */
  function LeaseFor(leases: map<Handle, Lease>, h: Handle, generation: nat): Lease {
    if h in leases && leases[h].generation == generation then leases[h] else FreshLease(generation)
  }

  predicate Exhausted(l: Lease) { l.terminal || l.revision >= LAST_REVISION }

  /** The lease `commitLeaseTransition` leaves behind; an exhausted one becomes terminal and the call throws. */
  function Committed(l: Lease, holder: Option<LeaseHolder>): Lease {
    if l.terminal then l
    else if l.revision >= LAST_REVISION then Lease(l.generation, l.revision, None, true)
    else Lease(l.generation, l.revision + 1, holder, false)
  }

  function CommitOf(h: Handle, l: Lease): Commit { Commit(h, l.generation, l.revision, l.holder) }

  /** Installs the successor of lease `l` at `h`, announcing it unless the revisions ran out. */
  function Install(s: State, h: Handle, l: Lease, holder: Option<LeaseHolder>): State {
    var l' := Committed(l, holder);
    s.(leases := s.leases[h := l'], log := if Exhausted(l) then s.log else s.log + [CommitOf(h, l')])
  }

  predicate HeldBy(l: Lease, c: Connection) { !l.terminal && l.holder.Some? && l.holder.value.connection == c }

  /** The claim's part inside the actor: a held lease is reported as it is, a free one is taken. */
  function Claim(s: State, id: RuntimeId, c: Connection, t: Token): State
    requires id in s.runtimes
  {
    var r := s.runtimes[id];
    var l := LeaseFor(s.leases, r.handle, r.generation);
    var s1 := s.(leases := s.leases[r.handle := l]);
    if l.terminal || l.holder.Some? then s1
    else Install(s1, r.handle, l, Some(LeaseHolder(c, t))).(minted := s.minted + {t})
  }

  /** The generation a release works with: the tracked runtime's, or else the lease's own. */
  function ReleaseGeneration(s: State, h: Handle): Option<nat> {
    if h in s.tracked && s.tracked[h] in s.runtimes then Some(s.runtimes[s.tracked[h]].generation)
    else if h in s.leases then Some(s.leases[h].generation)
    else None
  }

  /** `token == None` is a release by connection, otherwise the exact token has to match. */
  function Release(s: State, h: Handle, c: Connection, token: Option<Token>): State {
    match ReleaseGeneration(s, h)
    case None => s
    case Some(generation) =>
      var l := LeaseFor(s.leases, h, generation);
      var s1 := s.(leases := s.leases[h := l]);
      if HeldBy(l, c) && (token.Some? ==> token.value == l.holder.value.token) then Install(s1, h, l, None)
      else s1
  }

  /** One round of `releaseConnection`: it looks at the lease entry itself, not at a runtime. */
  function Disconnect(s: State, h: Handle, c: Connection): State
    requires h in s.leases
  {
    if HeldBy(s.leases[h], c) then Install(s, h, s.leases[h], None) else s
  }

  /** The compare-and-swap: the caller names the revision it saw, and some other connection holds the lease. */
  predicate TakeoverAccepted(s: State, h: Handle, generation: nat, revision: nat, c: Connection) {
    && h in s.tracked && s.tracked[h] in s.runtimes
    && s.runtimes[s.tracked[h]] == Runtime(h, generation)
    && var l := LeaseFor(s.leases, h, generation);
       && !l.terminal && l.revision == revision
       && l.holder.Some? && l.holder.value.connection != c
  }

  function Takeover(s: State, h: Handle, generation: nat, revision: nat, c: Connection, t: Token): State
    requires TakeoverAccepted(s, h, generation, revision, c)
  {
    Install(s, h, LeaseFor(s.leases, h, generation), Some(LeaseHolder(c, t))).(minted := s.minted + {t})
  }

  /** The rekey's part inside the actor. Within a generation the lease moves and, when held, advances. */
  function RekeyLease(s: State, from: Handle, id: RuntimeId): State
    requires id in s.runtimes
  {
    var r := s.runtimes[id];
    var bare := s.leases - {from, r.handle};
    if from !in s.leases || s.leases[from].generation != r.generation then
      s.(leases := bare[r.handle := FreshLease(r.generation)])
    else
      var previous := s.leases[from];
      var s1 := s.(leases := bare[r.handle := previous]);
      if previous.holder.None? then s1 else Install(s1, r.handle, previous, previous.holder)
  }

  // ---------------------------------------------------------------- the transition system

  datatype Action =
    | Track(h: Handle, id: RuntimeId, generation: nat)
    | Replace(h: Handle, id: RuntimeId)
    | StartNext(id: RuntimeId)
    | Untrack(h: Handle)
    | BeginForget(h: Handle)
    | DropLease
    | Reconcile(id: RuntimeId)
    | BeginClaim(id: RuntimeId)
    | EndClaim(c: Connection, t: Token)
    | ReleaseBy(h: Handle, c: Connection, token: Option<Token>)
    | DisconnectOne(h: Handle, c: Connection)
    | TakeOver(h: Handle, generation: nat, revision: nat, c: Connection, t: Token)
    | BeginRekey(h: Handle, next: Handle, generation: nat)
    | EndRekey

  /** Runtime `id` is what the supervisor has at the runtime's own handle. */
  predicate Tracked(s: State, id: RuntimeId) {
    id in s.runtimes && s.runtimes[id].handle in s.tracked && s.tracked[s.runtimes[id].handle] == id
  }

  /** What the code itself checks, and that tokens come from a fresh-value generator. */
  predicate Can(s: State, a: Action) {
    match a
    case Track(h, id, _) => s.pool.Free? && h !in s.tracked && id !in s.runtimes
    case Replace(h, id) => s.pool.Free? && h in s.tracked && s.tracked[h] in s.runtimes && id !in s.runtimes
    case StartNext(id) => id in s.runtimes
    case Untrack(h) => true
    case BeginForget(h) => s.pool.Free?
    case DropLease => s.pool.Forgetting?
    case Reconcile(id) => id in s.runtimes
    case BeginClaim(id) => s.pool.Free? && Tracked(s, id)
    case EndClaim(_, t) => s.pool.Claiming? && s.pool.id in s.runtimes && t !in s.minted
    case ReleaseBy(_, _, _) => true
    case DisconnectOne(h, _) => h in s.leases
    case TakeOver(h, generation, revision, c, t) =>
      s.pool.Free? && TakeoverAccepted(s, h, generation, revision, c) && t !in s.minted
    case BeginRekey(h, next, generation) =>
      && s.pool.Free? && h in s.tracked && s.tracked[h] in s.runtimes
      && (next in s.tracked ==> s.tracked[next] == s.tracked[h])
      && s.runtimes[s.tracked[h]].generation <= generation
    case EndRekey => s.pool.Rekeying? && s.pool.id in s.runtimes
  }

  function Assign(s: State, id: RuntimeId, r: Runtime): State {
    s.(runtimes := s.runtimes[id := r], spent := s.spent + {Domain(r.handle, r.generation)})
  }

  function Do(s: State, a: Action): State
    requires Can(s, a)
  {
    match a
    case Track(h, id, generation) => Assign(s, id, Runtime(h, generation)).(tracked := s.tracked[h := id])
    case Replace(h, id) =>
      Assign(s, id, Runtime(h, s.runtimes[s.tracked[h]].generation)).(tracked := s.tracked[h := id])
    case StartNext(id) => Assign(s, id, Runtime(s.runtimes[id].handle, s.runtimes[id].generation + 1))
    case Untrack(h) => s.(tracked := s.tracked - {h})
    case BeginForget(h) => s.(tracked := s.tracked - {h}, pool := Forgetting(h))
    case DropLease => s.(leases := s.leases - {s.pool.handle}, pool := Free)
    case Reconcile(id) =>
      var r := s.runtimes[id];
      s.(leases := s.leases[r.handle := LeaseFor(s.leases, r.handle, r.generation)])
    case BeginClaim(id) => s.(pool := Claiming(id))
    case EndClaim(c, t) => Claim(s, s.pool.id, c, t).(pool := Free)
    case ReleaseBy(h, c, token) => Release(s, h, c, token)
    case DisconnectOne(h, c) => Disconnect(s, h, c)
    case TakeOver(h, generation, revision, c, t) => Takeover(s, h, generation, revision, c, t)
    case BeginRekey(h, next, generation) =>
      var id := s.tracked[h];
      Assign(s, id, Runtime(next, generation)).(tracked := (s.tracked - {h})[next := id], pool := Rekeying(h, id))
    case EndRekey => RekeyLease(s, s.pool.from, s.pool.id).(pool := Free)
  }

  /** A generation is never given to the same handle twice, and only a runtime that is still tracked
      reconciles its lease: the two conditions under which revisions can be trusted. */
  predicate Disciplined(s: State, a: Action)
    requires Can(s, a)
  {
    match a
    case Track(h, _, generation) => Domain(h, generation) !in s.spent
    case StartNext(id) => Domain(s.runtimes[id].handle, s.runtimes[id].generation + 1) !in s.spent
    case BeginRekey(h, next, generation) => Domain(next, generation) !in s.spent
    case Reconcile(id) => Tracked(s, id)
    case _ => true
  }

  predicate Init(s: State) {
    s == State(map[], map[], map[], Free, {}, {}, [])
  }

  ghost predicate IsRun(states: seq<State>, actions: seq<Action>) {
    && |states| == |actions| + 1
    && Init(states[0])
    && forall i :: 0 <= i < |actions| ==> Can(states[i], actions[i]) && states[i + 1] == Do(states[i], actions[i])
  }

  ghost predicate IsDisciplinedRun(states: seq<State>, actions: seq<Action>) {
    IsRun(states, actions) && forall i :: 0 <= i < |actions| ==>
      Can(states[i], actions[i]) && Disciplined(states[i], actions[i])
  }

  /** `assertLease`: the command of connection `c` with token `t` is let through to runtime `id`. */
  predicate Admitted(s: State, id: RuntimeId, c: Connection, t: Token) {
    && id in s.runtimes
    && var r := s.runtimes[id];
       && r.handle in s.leases && !s.leases[r.handle].terminal && s.leases[r.handle].generation == r.generation
       && s.leases[r.handle].holder == Some(LeaseHolder(c, t))
  }
}

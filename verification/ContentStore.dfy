/** The content store as a transition system: every action is the synchronous code between two
    awaits, and file operations succeed or fail nondeterministically. */
module ContentStore {
  import opened Prelude
  import opened ContentRefs

  type EntryId = nat      // identity of an Entry object
  type TokenId = nat      // identity of a hold or pin handle
  type OpId = nat         // one call in progress
  type TombId = nat       // the random suffix of a tombstone directory

  datatype Limits = Limits(maxBlobBytes: nat, maxContentBlobBytes: nat, maxCacheBytes: nat, maxCacheItems: nat)

  datatype Entry = Entry(ref: Ref, published: bool, holds: nat, pins: nat, deleting: bool)

  datatype TokenKind = HoldToken | PinToken

  /** The source keeps one flag `active`. `Releasing` and `Removing` both have it down: in the first
      the counter has not been lowered yet, in the second the release is deleting the entry. */
  datatype Phase = Active | Releasing(op: OpId) | Removing(op: OpId) | Released

  /** `entry` is a history field: the source stores the key only. */
  datatype Token = Token(kind: TokenKind, key: Key, entry: EntryId, phase: Phase)

  /** A digest directory: its content file and its manifest (reference and published flag). */
  datatype Blob = Blob(content: Option<Ref>, manifest: Option<(Ref, bool)>)

  datatype Progress = NoDirectory | DirectoryMade | ContentPlaced | ManifestWritten

  datatype DeleteReason = ByRelease(token: TokenId) | ByGc(rest: seq<(Key, EntryId)>)

  datatype DeleteStage =
    | Waiting                 // queued on the tombstone lock
    | Renaming                // inside it, before the rename
    | Renamed(tomb: TombId)   // the directory moved, the entry is still registered
    | Unregistered(tomb: TombId)
    | Leaving(failed: bool)   // out of the tombstone lock, still inside the digest lock

  datatype Op =
    | Staging(namespace: Namespace, expected: Option<nat>, reserved: nat)
    | StageQueued(ref: Ref, reserved: nat)
    | StageVerifying(ref: Ref, reserved: nat, entry: EntryId)
    | StageBuilding(ref: Ref, reserved: nat, progress: Progress)
    | StageCleaning(ref: Ref, reserved: nat)
    | StageUnwinding(reserved: nat)
    | PublishQueued(token: TokenId)
    | PublishVerifying(token: TokenId, entry: EntryId)
    | PublishWriting(token: TokenId, entry: EntryId)
    | PublishWritten(token: TokenId, entry: EntryId)
    | Pinning(ref: Ref, entry: EntryId)
    | HoldQueued(ref: Ref)
    | HoldVerifying(ref: Ref, entry: EntryId)
    | ReleaseQueued(token: TokenId)
    | Deleting(why: DeleteReason, key: Key, entry: EntryId, stage: DeleteStage)
    | DeleteFailed(why: DeleteReason, key: Key, entry: EntryId)
    | GcCleanupQueued(candidates: seq<(Key, EntryId)>)
    | GcCleaning(candidates: seq<(Key, EntryId)>)
    | GcNext(candidates: seq<(Key, EntryId)>)
    | GcQueued(key: Key, entry: EntryId, rest: seq<(Key, EntryId)>)
    | Finished

  datatype Store = Store(
    limits: Limits,
    heap: map<EntryId, Entry>,
    entries: map<Key, EntryId>,
    tombstones: map<TombId, nat>,
    tokens: map<TokenId, Token>,
    ops: map<OpId, Op>,
    digestQueues: map<Key, seq<OpId>>,
    tombstoneQueue: seq<OpId>,
    bytes: int,
    items: int,
    reservedBytes: int,
    reservedItems: int,
    disk: map<Key, Blob>,
    diskTombs: set<TombId>)

  predicate IsInit(s: Store) {
    s == Store(s.limits, map[], map[], map[], map[], map[], map[], [], 0, 0, 0, 0, map[], {})
  }

  // ---------------------------------------------------------------- locks

  function Queue(s: Store, k: Key): seq<OpId> {
    if k in s.digestQueues then s.digestQueues[k] else []
  }

  function Enqueue(s: Store, k: Key, o: OpId): Store {
    s.(digestQueues := s.digestQueues[k := Queue(s, k) + [o]])
  }

  function Dequeue(s: Store, k: Key): Store
    requires Queue(s, k) != []
  {
    s.(digestQueues := s.digestQueues[k := Queue(s, k)[1..]])
  }

  predicate AtHead(s: Store, k: Key, o: OpId) {
    Queue(s, k) != [] && Queue(s, k)[0] == o
  }

  predicate AtTombHead(s: Store, o: OpId) {
    s.tombstoneQueue != [] && s.tombstoneQueue[0] == o
  }

  /** The key whose digest lock an operation is inside, if any. */
  function Inside(op: Op): Option<Key> {
    match op
    case StageVerifying(ref, _, _) => Some(ContentKey(ref))
    case StageBuilding(ref, _, _) => Some(ContentKey(ref))
    case StageCleaning(ref, _) => Some(ContentKey(ref))
    case HoldVerifying(ref, _) => Some(ContentKey(ref))
    case Deleting(_, k, _, _) => Some(k)
    case _ => None
  }

  /** Publication finds its key through the token. */
  function InsideOf(s: Store, op: Op): Option<Key> {
    if (op.PublishVerifying? || op.PublishWriting? || op.PublishWritten?) && op.token in s.tokens
    then Some(s.tokens[op.token].key)
    else Inside(op)
  }

  predicate InsideTomb(op: Op) {
    op.GcCleaning? || (op.Deleting? && (op.stage.Renaming? || op.stage.Renamed? || op.stage.Unregistered?))
  }

  // ---------------------------------------------------------------- small state updates

  function Become(s: Store, o: OpId, op: Op): Store { s.(ops := s.ops[o := op]) }

  predicate At(s: Store, o: OpId) { o in s.ops }

  function AddToken(s: Store, t: TokenId, kind: TokenKind, e: EntryId): Store
    requires e in s.heap
  {
    s.(tokens := s.tokens[t := Token(kind, ContentKey(s.heap[e].ref), e, Active)])
  }

  function SetPhase(s: Store, t: TokenId, p: Phase): Store
    requires t in s.tokens
  {
    s.(tokens := s.tokens[t := s.tokens[t].(phase := p)])
  }

  function SetEntry(s: Store, e: EntryId, en: Entry): Store { s.(heap := s.heap[e := en]) }

  /** `#createHold`: raise the counter and register a fresh active token. */
  function CreateHold(s: Store, e: EntryId, t: TokenId): Store
    requires e in s.heap
  {
    AddToken(SetEntry(s, e, s.heap[e].(holds := s.heap[e].holds + 1)), t, HoldToken, e)
  }

  /** The released counter, with the source's clamp at zero. */
  function Lowered(en: Entry, kind: TokenKind): Entry {
    if kind == HoldToken then en.(holds := if en.holds > 0 then en.holds - 1 else 0)
    else en.(pins := if en.pins > 0 then en.pins - 1 else 0)
  }

  function Raised(en: Entry, kind: TokenKind): Entry {
    if kind == HoldToken then en.(holds := en.holds + 1) else en.(pins := en.pins + 1)
  }

  predicate Unused(en: Entry) { en.holds == 0 && en.pins == 0 && !en.deleting }

  function BlobLimit(s: Store, ns: Namespace): nat {
    if ns == Attachment then s.limits.maxBlobBytes else s.limits.maxContentBlobBytes
  }

  // ---------------------------------------------------------------- stage

  predicate Reserves(op: Op) {
    op.Staging? || op.StageQueued? || op.StageVerifying? || op.StageBuilding? || op.StageCleaning? || op.StageUnwinding?
  }

  function ReservedBytes(op: Op): nat
    requires Reserves(op)
  {
    op.reserved
  }

  /** `#reserve` succeeds only when both quotas still admit the whole reservation. */
  predicate CanStage(s: Store, o: OpId, ns: Namespace, expected: Option<nat>) {
    && o !in s.ops
    && (expected.Some? ==> 0 < expected.value <= BlobLimit(s, ns))
    && var bytes := if expected.Some? then expected.value else BlobLimit(s, ns);
    && s.bytes + s.reservedBytes + bytes <= s.limits.maxCacheBytes
    && s.items + s.reservedItems + 1 <= s.limits.maxCacheItems
  }

  function StageCall(s: Store, o: OpId, ns: Namespace, expected: Option<nat>): Store {
    var bytes := if expected.Some? then expected.value else BlobLimit(s, ns);
    Become(s, o, Staging(ns, expected, bytes))
      .(reservedBytes := s.reservedBytes + bytes, reservedItems := s.reservedItems + 1)
  }

  predicate CanStageFail(s: Store, o: OpId) { At(s, o) && s.ops[o].Staging? }

  function StageFail(s: Store, o: OpId): Store {
    if !CanStageFail(s, o) then s else Become(s, o, StageUnwinding(s.ops[o].reserved))
  }

  /** The body is written and hashed; its length passed every check of the write loop. */
  predicate CanStageStreamed(s: Store, o: OpId, ref: Ref) {
    && At(s, o) && s.ops[o].Staging?
    && var op := s.ops[o];
    && ContentKey(ref).namespace == op.namespace
    && 0 < ref.byteLength <= BlobLimit(s, op.namespace)
    && (op.expected.Some? ==> ref.byteLength == op.expected.value)
  }

  function StageStreamed(s: Store, o: OpId, ref: Ref): Store {
    if !CanStageStreamed(s, o, ref) then s
    else Enqueue(Become(s, o, StageQueued(ref, s.ops[o].reserved)), ContentKey(ref), o)
  }

  predicate CanStageEnter(s: Store, o: OpId) {
    At(s, o) && s.ops[o].StageQueued? && AtHead(s, ContentKey(s.ops[o].ref), o)
  }

  /** First code inside the digest lock; `aborted` is the state of the abort signal. */
  function StageEnter(s: Store, o: OpId, aborted: bool): Store {
    if !CanStageEnter(s, o) then s
    else
      var StageQueued(ref, reserved) := s.ops[o];
      var k := ContentKey(ref);
      if aborted then Dequeue(Become(s, o, StageUnwinding(reserved)), k)
      else if k in s.entries && s.entries[k] in s.heap then
        var e := s.entries[k];
        if s.heap[e].deleting || s.heap[e].ref != ref then Dequeue(Become(s, o, StageUnwinding(reserved)), k)
        else Become(s, o, StageVerifying(ref, reserved, e))
      else Become(s, o, StageBuilding(ref, reserved, NoDirectory))
  }

  predicate CanStageVerified(s: Store, o: OpId, t: TokenId) {
    At(s, o) && s.ops[o].StageVerifying? && AtHead(s, ContentKey(s.ops[o].ref), o) && t !in s.tokens &&
      s.ops[o].entry in s.heap
  }

  function StageVerified(s: Store, o: OpId, ok: bool, t: TokenId): Store {
    if !CanStageVerified(s, o, t) then s
    else
      var StageVerifying(ref, reserved, e) := s.ops[o];
      if !ok then Dequeue(Become(s, o, StageUnwinding(reserved)), ContentKey(ref))
      else
        var released := s.(reservedBytes := s.reservedBytes - reserved, reservedItems := s.reservedItems - 1);
        Dequeue(Become(CreateHold(released, e, t), o, Finished), ContentKey(ref))
  }

  /** One successful file step of building a new digest directory. `mkdir` refuses an existing one. */
  predicate CanStageBuild(s: Store, o: OpId) {
    && At(s, o) && s.ops[o].StageBuilding? && !s.ops[o].progress.ManifestWritten?
    && (s.ops[o].progress.NoDirectory? ==> ContentKey(s.ops[o].ref) !in s.disk)
  }

  function StageBuild(s: Store, o: OpId): Store {
    if !CanStageBuild(s, o) then s
    else
      var StageBuilding(ref, reserved, p) := s.ops[o];
      var p' := NextProgress(p);
      Become(s, o, StageBuilding(ref, reserved, p')).(disk := s.disk[ContentKey(ref) := BlobAt(p', ref)])
  }

  function NextProgress(p: Progress): Progress {
    match p
    case NoDirectory => DirectoryMade
    case DirectoryMade => ContentPlaced
    case _ => ManifestWritten
  }

  /** What the directory holds once a step of the build is done. */
  function BlobAt(p: Progress, ref: Ref): Blob {
    Blob(if p.ContentPlaced? || p.ManifestWritten? then Some(ref) else None,
         if p.ManifestWritten? then Some((ref, false)) else None)
  }

  predicate CanStageCommit(s: Store, o: OpId, e: EntryId, t: TokenId) {
    && At(s, o) && s.ops[o].StageBuilding? && s.ops[o].progress.ManifestWritten?
    && AtHead(s, ContentKey(s.ops[o].ref), o)
    && e !in s.heap && t !in s.tokens
  }

  /** Register the entry, turn the reservation into usage and hand out the first hold. */
  function StageCommit(s: Store, o: OpId, e: EntryId, t: TokenId): Store {
    if !CanStageCommit(s, o, e, t) then s
    else
      var StageBuilding(ref, reserved, _) := s.ops[o];
      var registered := s.(
        heap := s.heap[e := Entry(ref, false, 0, 0, false)],
        entries := s.entries[ContentKey(ref) := e],
        reservedBytes := s.reservedBytes - reserved,
        reservedItems := s.reservedItems - 1,
        bytes := s.bytes + ref.byteLength,
        items := s.items + 1);
      Dequeue(Become(CreateHold(registered, e, t), o, Finished), ContentKey(ref))
  }

  predicate CanStageBuildFail(s: Store, o: OpId) {
    At(s, o) && s.ops[o].StageBuilding? && AtHead(s, ContentKey(s.ops[o].ref), o)
  }

  /** Only an operation that made the directory itself removes it. */
  function StageBuildFail(s: Store, o: OpId): Store {
    if !CanStageBuildFail(s, o) then s
    else
      var StageBuilding(ref, reserved, p) := s.ops[o];
      if p == NoDirectory then Dequeue(Become(s, o, StageUnwinding(reserved)), ContentKey(ref))
      else Become(s, o, StageCleaning(ref, reserved))
  }

  predicate CanStageCleaned(s: Store, o: OpId) {
    At(s, o) && s.ops[o].StageCleaning? && AtHead(s, ContentKey(s.ops[o].ref), o)
  }

  /** A failed removal is swallowed and leaves the directory behind. */
  function StageCleaned(s: Store, o: OpId, removed: bool): Store {
    if !CanStageCleaned(s, o) then s
    else
      var StageCleaning(ref, reserved) := s.ops[o];
      var k := ContentKey(ref);
      var s1 := if removed then s.(disk := s.disk - {k}) else s;
      Dequeue(Become(s1, o, StageUnwinding(reserved)), k)
  }

  predicate CanStageUnwind(s: Store, o: OpId) { At(s, o) && s.ops[o].StageUnwinding? }

  function StageUnwind(s: Store, o: OpId): Store {
    if !CanStageUnwind(s, o) then s
    else
      Become(s, o, Finished)
        .(reservedBytes := s.reservedBytes - s.ops[o].reserved, reservedItems := s.reservedItems - 1)
  }

  // ---------------------------------------------------------------- publish

  predicate CanPublishCall(s: Store, o: OpId, t: TokenId) {
    o !in s.ops && t in s.tokens && s.tokens[t].kind == HoldToken && s.tokens[t].phase == Active
  }

  function PublishCall(s: Store, o: OpId, t: TokenId): Store {
    if !CanPublishCall(s, o, t) then s else Enqueue(Become(s, o, PublishQueued(t)), s.tokens[t].key, o)
  }

  predicate CanPublishEnter(s: Store, o: OpId) {
    && At(s, o) && s.ops[o].PublishQueued? && s.ops[o].token in s.tokens
    && AtHead(s, s.tokens[s.ops[o].token].key, o)
  }

  function PublishEnter(s: Store, o: OpId): Store {
    if !CanPublishEnter(s, o) then s
    else
      var t := s.ops[o].token;
      var k := s.tokens[t].key;
      if s.tokens[t].phase == Active && k in s.entries && s.entries[k] in s.heap
         && !s.heap[s.entries[k]].deleting && !s.heap[s.entries[k]].published
      then Become(s, o, PublishVerifying(t, s.entries[k]))
      else Dequeue(Become(s, o, Finished), k)   // stale handle, or published already
  }

  predicate CanPublishVerified(s: Store, o: OpId) {
    && At(s, o) && s.ops[o].PublishVerifying? && s.ops[o].token in s.tokens
    && AtHead(s, s.tokens[s.ops[o].token].key, o)
  }

  function PublishVerified(s: Store, o: OpId, ok: bool): Store {
    if !CanPublishVerified(s, o) then s
    else
      var PublishVerifying(t, e) := s.ops[o];
      if ok then Become(s, o, PublishWriting(t, e)) else Dequeue(Become(s, o, Finished), s.tokens[t].key)
  }

  predicate CanPublishWrite(s: Store, o: OpId) {
    && At(s, o) && s.ops[o].PublishWriting? && s.ops[o].token in s.tokens && s.ops[o].entry in s.heap
    && AtHead(s, s.tokens[s.ops[o].token].key, o)
  }

  /** The manifest is replaced by an atomic rename, or not at all. */
  function PublishWrite(s: Store, o: OpId, ok: bool): Store {
    if !CanPublishWrite(s, o) then s
    else
      var PublishWriting(t, e) := s.ops[o];
      var k := s.tokens[t].key;
      if ok && k in s.disk then
        Become(s, o, PublishWritten(t, e)).(disk := s.disk[k := s.disk[k].(manifest := Some((s.heap[e].ref, true)))])
      else Dequeue(Become(s, o, Finished), k)
  }

  predicate CanPublishDone(s: Store, o: OpId) {
    && At(s, o) && s.ops[o].PublishWritten? && s.ops[o].token in s.tokens && s.ops[o].entry in s.heap
    && AtHead(s, s.tokens[s.ops[o].token].key, o)
  }

  function PublishDone(s: Store, o: OpId): Store {
    if !CanPublishDone(s, o) then s
    else
      var PublishWritten(t, e) := s.ops[o];
      Dequeue(Become(SetEntry(s, e, s.heap[e].(published := true)), o, Finished), s.tokens[t].key)
  }

  // ---------------------------------------------------------------- pin (takes no digest lock)

  predicate CanPinCall(s: Store, o: OpId, ref: Ref) {
    && o !in s.ops
    && var k := ContentKey(ref);
    && k in s.entries && s.entries[k] in s.heap
    && var en := s.heap[s.entries[k]];
    && !en.deleting && en.ref == ref && en.published
  }

  function PinCall(s: Store, o: OpId, ref: Ref): Store {
    if !CanPinCall(s, o, ref) then s
    else
      var e := s.entries[ContentKey(ref)];
      Become(SetEntry(s, e, s.heap[e].(pins := s.heap[e].pins + 1)), o, Pinning(ref, e))
  }

  predicate CanPinOpened(s: Store, o: OpId, t: TokenId) {
    At(s, o) && s.ops[o].Pinning? && s.ops[o].entry in s.heap && t !in s.tokens
  }

  function PinOpened(s: Store, o: OpId, t: TokenId): Store {
    if !CanPinOpened(s, o, t) then s else Become(AddToken(s, t, PinToken, s.ops[o].entry), o, Finished)
  }

  predicate CanPinFail(s: Store, o: OpId) { At(s, o) && s.ops[o].Pinning? && s.ops[o].entry in s.heap }

  function PinFail(s: Store, o: OpId): Store {
    if !CanPinFail(s, o) then s
    else
      var e := s.ops[o].entry;
      Become(SetEntry(s, e, Lowered(s.heap[e], PinToken)), o, Finished)
  }

  // ---------------------------------------------------------------- hold published content

  predicate CanHoldCall(s: Store, o: OpId) { o !in s.ops }

  function HoldCall(s: Store, o: OpId, ref: Ref): Store {
    Enqueue(Become(s, o, HoldQueued(ref)), ContentKey(ref), o)
  }

  predicate CanHoldEnter(s: Store, o: OpId) {
    At(s, o) && s.ops[o].HoldQueued? && AtHead(s, ContentKey(s.ops[o].ref), o)
  }

  function HoldEnter(s: Store, o: OpId): Store {
    if !CanHoldEnter(s, o) then s
    else
      var ref := s.ops[o].ref;
      var k := ContentKey(ref);
      if k in s.entries && s.entries[k] in s.heap && !s.heap[s.entries[k]].deleting
         && s.heap[s.entries[k]].ref == ref && s.heap[s.entries[k]].published
      then Become(s, o, HoldVerifying(ref, s.entries[k]))
      else Dequeue(Become(s, o, Finished), k)
  }

  predicate CanHoldVerified(s: Store, o: OpId, t: TokenId) {
    At(s, o) && s.ops[o].HoldVerifying? && s.ops[o].entry in s.heap && AtHead(s, ContentKey(s.ops[o].ref), o) &&
      t !in s.tokens
  }

  function HoldVerified(s: Store, o: OpId, ok: bool, t: TokenId): Store {
    if !CanHoldVerified(s, o, t) then s
    else
      var HoldVerifying(ref, e) := s.ops[o];
      Dequeue(Become(if ok then CreateHold(s, e, t) else s, o, Finished), ContentKey(ref))
  }

  // ---------------------------------------------------------------- release

  predicate CanReleaseCall(s: Store, o: OpId, t: TokenId) {
    o !in s.ops && t in s.tokens && s.tokens[t].phase == Active
  }

  function ReleaseCall(s: Store, o: OpId, t: TokenId): Store {
    if !CanReleaseCall(s, o, t) then s
    else Enqueue(Become(SetPhase(s, t, Releasing(o)), o, ReleaseQueued(t)), s.tokens[t].key, o)
  }

  predicate CanReleaseEnter(s: Store, o: OpId) {
    && At(s, o) && s.ops[o].ReleaseQueued? && s.ops[o].token in s.tokens
    && AtHead(s, s.tokens[s.ops[o].token].key, o)
  }

  /** Lower the counter of whatever entry the key names now; the last holder of unpublished
      content goes on to delete it. */
  function ReleaseEnter(s: Store, o: OpId): Store {
    if !CanReleaseEnter(s, o) then s
    else
      var t := s.ops[o].token;
      var k := s.tokens[t].key;
      if k !in s.entries || s.entries[k] !in s.heap then Dequeue(Become(SetPhase(s, t, Released), o, Finished), k)
      else
        var e := s.entries[k];
        var en := Lowered(s.heap[e], s.tokens[t].kind);
        if !en.published && Unused(en) then
          BeginDelete(SetPhase(SetEntry(s, e, en.(deleting := true)), t, Removing(o)), o, ByRelease(t), k, e)
        else Dequeue(Become(SetPhase(SetEntry(s, e, en), t, Released), o, Finished), k)
  }

  // ---------------------------------------------------------------- delete an entry

  function BeginDelete(s: Store, o: OpId, why: DeleteReason, k: Key, e: EntryId): Store {
    Become(s, o, Deleting(why, k, e, Waiting)).(tombstoneQueue := s.tombstoneQueue + [o])
  }

  function StageOf(s: Store, o: OpId, stage: DeleteStage): Store
    requires At(s, o) && s.ops[o].Deleting?
  {
    Become(s, o, s.ops[o].(stage := stage))
  }

  function LeaveTomb(s: Store, o: OpId, failed: bool): Store
    requires At(s, o) && s.ops[o].Deleting? && s.tombstoneQueue != []
  {
    StageOf(s, o, Leaving(failed)).(tombstoneQueue := s.tombstoneQueue[1..])
  }

  predicate CanDeleteEnter(s: Store, o: OpId) {
    At(s, o) && s.ops[o].Deleting? && s.ops[o].stage.Waiting? && AtTombHead(s, o)
  }

  /** Inside the tombstone lock: an entry that was replaced meanwhile is left alone. */
  function DeleteEnter(s: Store, o: OpId): Store {
    if !CanDeleteEnter(s, o) then s
    else
      var op := s.ops[o];
      if op.key in s.entries && s.entries[op.key] == op.entry then StageOf(s, o, Renaming)
      else LeaveTomb(s, o, false)
  }

  predicate CanDeleteRename(s: Store, o: OpId, tomb: TombId) {
    && At(s, o) && s.ops[o].Deleting? && s.ops[o].stage.Renaming? && AtTombHead(s, o)
    && tomb !in s.tombstones && tomb !in s.diskTombs
  }

  function DeleteRename(s: Store, o: OpId, ok: bool, tomb: TombId): Store {
    if !CanDeleteRename(s, o, tomb) then s
    else
      if ok then StageOf(s, o, Renamed(tomb)).(disk := s.disk - {s.ops[o].key}, diskTombs := s.diskTombs + {tomb})
      else LeaveTomb(s, o, true)
  }

  predicate CanDeleteUnregister(s: Store, o: OpId) {
    At(s, o) && s.ops[o].Deleting? && s.ops[o].stage.Renamed? && s.ops[o].entry in s.heap && AtTombHead(s, o)
  }

  function DeleteUnregister(s: Store, o: OpId): Store {
    if !CanDeleteUnregister(s, o) then s
    else
      var op := s.ops[o];
      StageOf(s, o, Unregistered(op.stage.tomb))
        .(entries := s.entries - {op.key},
          tombstones := s.tombstones[op.stage.tomb := s.heap[op.entry].ref.byteLength])
  }

  /** Removing a tombstone that is still tracked gives its quota back. */
  function DropTomb(s: Store, tomb: TombId): Store {
    var s1 := s.(diskTombs := s.diskTombs - {tomb});
    if tomb in s.tombstones then
      s1.(tombstones := s.tombstones - {tomb}, bytes := s.bytes - s.tombstones[tomb], items := s.items - 1)
    else s1
  }

  /** Dropping a tombstone touches nothing but the tombstones and their share of the quota. */
  lemma DropTombShape(s: Store, tomb: TombId)
    ensures var s' := DropTomb(s, tomb);
            && s'.ops == s.ops && s'.limits == s.limits && s'.tokens == s.tokens
            && s'.digestQueues == s.digestQueues && s'.tombstoneQueue == s.tombstoneQueue && s'.heap == s.heap
            && s'.entries == s.entries
            && s'.disk == s.disk && s'.tombstones.Keys <= s.tombstones.Keys
            && s'.reservedBytes == s.reservedBytes && s'.reservedItems == s.reservedItems
  {
    hide Unused;
    if tomb in s.tombstones {} else {}
  }

  predicate CanDeleteRemove(s: Store, o: OpId) {
    At(s, o) && s.ops[o].Deleting? && s.ops[o].stage.Unregistered? && AtTombHead(s, o)
  }

  function DeleteRemove(s: Store, o: OpId, ok: bool): Store {
    if !CanDeleteRemove(s, o) then s else LeaveTomb(if ok then DropTomb(s, s.ops[o].stage.tomb) else s, o, !ok)
  }

  predicate CanDeleteLeave(s: Store, o: OpId) {
    && At(s, o) && s.ops[o].Deleting? && s.ops[o].stage.Leaving? && AtHead(s, s.ops[o].key, o)
    && (s.ops[o].why.ByRelease? ==> s.ops[o].why.token in s.tokens)
  }

  /** Leave the digest lock; a failure still has its catch clause to run. */
  function DeleteLeave(s: Store, o: OpId): Store {
    if !CanDeleteLeave(s, o) then s
    else
      var Deleting(why, k, e, stage) := s.ops[o];
      if stage.failed then Dequeue(Become(s, o, DeleteFailed(why, k, e)), k)
      else
        match why
        case ByRelease(t) => Dequeue(Become(SetPhase(s, t, Released), o, Finished), k)
        case ByGc(rest) => Dequeue(Become(s, o, GcNext(rest)), k)
  }

  predicate CanDeleteCatch(s: Store, o: OpId) {
    && At(s, o) && s.ops[o].DeleteFailed? && s.ops[o].entry in s.heap
    && (s.ops[o].why.ByRelease? ==> s.ops[o].why.token in s.tokens)
  }

  /** The catch clauses: while the entry is still registered the deletion is undone, and a release
      also gets its counter and its handle back. */
  function DeleteCatch(s: Store, o: OpId): Store {
    if !CanDeleteCatch(s, o) then s
    else
      var DeleteFailed(why, k, e) := s.ops[o];
      var registered := k in s.entries && s.entries[k] == e;
      var en := s.heap[e].(deleting := false);
      match why
      case ByRelease(t) =>
        if registered then
          Become(SetPhase(SetEntry(s, e, Raised(en, s.tokens[t].kind)), t, Active), o, Finished)
        else Become(SetPhase(s, t, Released), o, Finished)
      case ByGc(_) =>
        if registered then Become(SetEntry(s, e, en), o, Finished) else Become(s, o, Finished)
  }

  // ---------------------------------------------------------------- gc

  predicate IsCandidate(s: Store, c: (Key, EntryId)) {
    && c.0 in s.entries && s.entries[c.0] == c.1 && c.1 in s.heap
    && s.heap[c.1].published && Unused(s.heap[c.1])
  }

  predicate CanGcCall(s: Store, o: OpId, candidates: seq<(Key, EntryId)>) {
    o !in s.ops && forall c :: c in candidates ==> IsCandidate(s, c)
  }

  function GcCall(s: Store, o: OpId, candidates: seq<(Key, EntryId)>): Store {
    Become(s, o, GcCleanupQueued(candidates)).(tombstoneQueue := s.tombstoneQueue + [o])
  }

  predicate CanGcCleanEnter(s: Store, o: OpId) { At(s, o) && s.ops[o].GcCleanupQueued? && AtTombHead(s, o) }

  function GcCleanEnter(s: Store, o: OpId): Store {
    if !CanGcCleanEnter(s, o) then s else Become(s, o, GcCleaning(s.ops[o].candidates))
  }

  predicate CanGcClean(s: Store, o: OpId, tomb: TombId) {
    At(s, o) && s.ops[o].GcCleaning? && AtTombHead(s, o) && tomb in s.diskTombs
  }

  /** Retry one leftover tombstone; a failed removal ends the whole collection. */
  function GcClean(s: Store, o: OpId, tomb: TombId, ok: bool): Store {
    if !CanGcClean(s, o, tomb) then s
    else
      if ok then DropTomb(s, tomb)
      else Become(s, o, Finished).(tombstoneQueue := s.tombstoneQueue[1..])
  }

  predicate CanGcCleanDone(s: Store, o: OpId) { At(s, o) && s.ops[o].GcCleaning? && AtTombHead(s, o) }

  function GcCleanDone(s: Store, o: OpId): Store {
    if !CanGcCleanDone(s, o) then s
    else Become(s, o, GcNext(s.ops[o].candidates)).(tombstoneQueue := s.tombstoneQueue[1..])
  }

  predicate CanGcAdvance(s: Store, o: OpId) { At(s, o) && s.ops[o].GcNext? }

  function GcAdvance(s: Store, o: OpId): Store {
    if !CanGcAdvance(s, o) then s
    else
      var cs := s.ops[o].candidates;
      if cs == [] then Become(s, o, Finished)
      else Enqueue(Become(s, o, GcQueued(cs[0].0, cs[0].1, cs[1..])), cs[0].0, o)
  }

  predicate CanGcEnter(s: Store, o: OpId) {
    At(s, o) && s.ops[o].GcQueued? && s.ops[o].entry in s.heap && AtHead(s, s.ops[o].key, o)
  }

  /** The candidate is the entry object seen when the collection started, whatever its key names now. */
  function GcEnter(s: Store, o: OpId): Store {
    if !CanGcEnter(s, o) then s
    else
      var GcQueued(k, e, rest) := s.ops[o];
      var en := s.heap[e];
      if en.published && Unused(en) then BeginDelete(SetEntry(s, e, en.(deleting := true)), o, ByGc(rest), k, e)
      else Dequeue(Become(s, o, GcNext(rest)), k)
  }

  // ---------------------------------------------------------------- the transition system

  datatype StageAction =
    | AStageCall(o: OpId, ns: Namespace, expected: Option<nat>)
    | AStageFail(o: OpId)
    | AStageStreamed(o: OpId, ref: Ref)
    | AStageEnter(o: OpId, aborted: bool)
    | AStageVerified(o: OpId, ok: bool, t: TokenId)
    | AStageBuild(o: OpId)
    | AStageCommit(o: OpId, e: EntryId, t: TokenId)
    | AStageBuildFail(o: OpId)
    | AStageCleaned(o: OpId, ok: bool)
    | AStageUnwind(o: OpId)

  predicate CanStageAction(s: Store, a: StageAction) {
    match a
    case AStageCall(o, ns, expected) => CanStage(s, o, ns, expected)
    case AStageFail(o) => CanStageFail(s, o)
    case AStageStreamed(o, ref) => CanStageStreamed(s, o, ref)
    case AStageEnter(o, _) => CanStageEnter(s, o)
    case AStageVerified(o, _, t) => CanStageVerified(s, o, t)
    case AStageBuild(o) => CanStageBuild(s, o)
    case AStageCommit(o, e, t) => CanStageCommit(s, o, e, t)
    case AStageBuildFail(o) => CanStageBuildFail(s, o)
    case AStageCleaned(o, _) => CanStageCleaned(s, o)
    case AStageUnwind(o) => CanStageUnwind(s, o)
  }

  function DoStageAction(s: Store, a: StageAction): Store {
    match a
    case AStageCall(o, ns, expected) => StageCall(s, o, ns, expected)
    case AStageFail(o) => StageFail(s, o)
    case AStageStreamed(o, ref) => StageStreamed(s, o, ref)
    case AStageEnter(o, aborted) => StageEnter(s, o, aborted)
    case AStageVerified(o, ok, t) => StageVerified(s, o, ok, t)
    case AStageBuild(o) => StageBuild(s, o)
    case AStageCommit(o, e, t) => StageCommit(s, o, e, t)
    case AStageBuildFail(o) => StageBuildFail(s, o)
    case AStageCleaned(o, ok) => StageCleaned(s, o, ok)
    case AStageUnwind(o) => StageUnwind(s, o)
  }

  datatype HandleAction =
    | APublishCall(o: OpId, t: TokenId)
    | APublishEnter(o: OpId)
    | APublishVerified(o: OpId, ok: bool)
    | APublishWrite(o: OpId, ok: bool)
    | APublishDone(o: OpId)
    | APinCall(o: OpId, ref: Ref)
    | APinOpened(o: OpId, t: TokenId)
    | APinFail(o: OpId)
    | AHoldCall(o: OpId, ref: Ref)
    | AHoldEnter(o: OpId)
    | AHoldVerified(o: OpId, ok: bool, t: TokenId)
    | AReleaseCall(o: OpId, t: TokenId)
    | AReleaseEnter(o: OpId)

  predicate CanHandleAction(s: Store, a: HandleAction) {
    match a
    case APublishCall(o, t) => CanPublishCall(s, o, t)
    case APublishEnter(o) => CanPublishEnter(s, o)
    case APublishVerified(o, _) => CanPublishVerified(s, o)
    case APublishWrite(o, _) => CanPublishWrite(s, o)
    case APublishDone(o) => CanPublishDone(s, o)
    case APinCall(o, ref) => CanPinCall(s, o, ref)
    case APinOpened(o, t) => CanPinOpened(s, o, t)
    case APinFail(o) => CanPinFail(s, o)
    case AHoldCall(o, _) => CanHoldCall(s, o)
    case AHoldEnter(o) => CanHoldEnter(s, o)
    case AHoldVerified(o, _, t) => CanHoldVerified(s, o, t)
    case AReleaseCall(o, t) => CanReleaseCall(s, o, t)
    case AReleaseEnter(o) => CanReleaseEnter(s, o)
  }

  function DoHandleAction(s: Store, a: HandleAction): Store {
    match a
    case APublishCall(o, t) => PublishCall(s, o, t)
    case APublishEnter(o) => PublishEnter(s, o)
    case APublishVerified(o, ok) => PublishVerified(s, o, ok)
    case APublishWrite(o, ok) => PublishWrite(s, o, ok)
    case APublishDone(o) => PublishDone(s, o)
    case APinCall(o, ref) => PinCall(s, o, ref)
    case APinOpened(o, t) => PinOpened(s, o, t)
    case APinFail(o) => PinFail(s, o)
    case AHoldCall(o, ref) => HoldCall(s, o, ref)
    case AHoldEnter(o) => HoldEnter(s, o)
    case AHoldVerified(o, ok, t) => HoldVerified(s, o, ok, t)
    case AReleaseCall(o, t) => ReleaseCall(s, o, t)
    case AReleaseEnter(o) => ReleaseEnter(s, o)
  }

  datatype RemovalAction =
    | ADeleteEnter(o: OpId)
    | ADeleteRename(o: OpId, ok: bool, tomb: TombId)
    | ADeleteUnregister(o: OpId)
    | ADeleteRemove(o: OpId, ok: bool)
    | ADeleteLeave(o: OpId)
    | ADeleteCatch(o: OpId)
    | AGcCall(o: OpId, candidates: seq<(Key, EntryId)>)
    | AGcCleanEnter(o: OpId)
    | AGcClean(o: OpId, tomb: TombId, ok: bool)
    | AGcCleanDone(o: OpId)
    | AGcAdvance(o: OpId)
    | AGcEnter(o: OpId)

  predicate CanRemovalAction(s: Store, a: RemovalAction) {
    match a
    case ADeleteEnter(o) => CanDeleteEnter(s, o)
    case ADeleteRename(o, _, tomb) => CanDeleteRename(s, o, tomb)
    case ADeleteUnregister(o) => CanDeleteUnregister(s, o)
    case ADeleteRemove(o, _) => CanDeleteRemove(s, o)
    case ADeleteLeave(o) => CanDeleteLeave(s, o)
    case ADeleteCatch(o) => CanDeleteCatch(s, o)
    case AGcCall(o, candidates) => CanGcCall(s, o, candidates)
    case AGcCleanEnter(o) => CanGcCleanEnter(s, o)
    case AGcClean(o, tomb, _) => CanGcClean(s, o, tomb)
    case AGcCleanDone(o) => CanGcCleanDone(s, o)
    case AGcAdvance(o) => CanGcAdvance(s, o)
    case AGcEnter(o) => CanGcEnter(s, o)
  }

  function DoRemovalAction(s: Store, a: RemovalAction): Store {
    match a
    case ADeleteEnter(o) => DeleteEnter(s, o)
    case ADeleteRename(o, ok, tomb) => DeleteRename(s, o, ok, tomb)
    case ADeleteUnregister(o) => DeleteUnregister(s, o)
    case ADeleteRemove(o, ok) => DeleteRemove(s, o, ok)
    case ADeleteLeave(o) => DeleteLeave(s, o)
    case ADeleteCatch(o) => DeleteCatch(s, o)
    case AGcCall(o, candidates) => GcCall(s, o, candidates)
    case AGcCleanEnter(o) => GcCleanEnter(s, o)
    case AGcClean(o, tomb, ok) => GcClean(s, o, tomb, ok)
    case AGcCleanDone(o) => GcCleanDone(s, o)
    case AGcAdvance(o) => GcAdvance(s, o)
    case AGcEnter(o) => GcEnter(s, o)
  }

  datatype Action = Stage(stage: StageAction) | Handle(handle: HandleAction) | Removal(removal: RemovalAction)

  predicate Can(s: Store, a: Action) {
    match a
    case Stage(x) => CanStageAction(s, x)
    case Handle(x) => CanHandleAction(s, x)
    case Removal(x) => CanRemovalAction(s, x)
  }

  function Do(s: Store, a: Action): Store {
    match a
    case Stage(x) => DoStageAction(s, x)
    case Handle(x) => DoHandleAction(s, x)
    case Removal(x) => DoRemovalAction(s, x)
  }

  /** A run from the empty store: any interleaving of any number of calls. */
  ghost predicate IsRun(states: seq<Store>, actions: seq<Action>) {
    && |states| == |actions| + 1
    && IsInit(states[0])
    && forall i :: 0 <= i < |actions| ==> Can(states[i], actions[i]) && states[i + 1] == Do(states[i], actions[i])
  }
}

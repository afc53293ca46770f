/** Progress of the store: every call is over after a bounded number of steps, and never waits for ever. */
module ContentStoreProgress {
  import opened Prelude
  import opened ContentRefs
  import opened ContentStore
  import opened ContentStoreInvariant
  import opened ContentStoreRuns

  // ---------------------------------------------------------------- how far an operation has come

  function Left(cs: seq<(Key, EntryId)>): nat { 8 * |cs| + 1 }

  function AfterDeletion(why: DeleteReason): nat { match why case ByRelease(_) => 0 case ByGc(rest) => Left(rest) }

  /** At most so many steps remain. */
  function Rank(op: Op): nat {
    match op
    case Staging(_, _, _) => 8
    case StageQueued(_, _) => 7
    case StageVerifying(_, _, _) => 3
    case StageBuilding(_, _, p) =>
      (match p case NoDirectory => 6 case DirectoryMade => 5 case ContentPlaced => 4 case ManifestWritten => 3)
    case StageCleaning(_, _) => 2
    case StageUnwinding(_) => 1
    case PublishQueued(_) => 4
    case PublishVerifying(_, _) => 3
    case PublishWriting(_, _) => 2
    case PublishWritten(_, _) => 1
    case Pinning(_, _) => 1
    case HoldQueued(_) => 2
    case HoldVerifying(_, _) => 1
    case ReleaseQueued(_) => 7
    case Deleting(why, _, _, stage) =>
      AfterDeletion(why) +
      (match stage
       case Waiting => 6
       case Renaming => 5
       case Renamed(_) => 4
       case Unregistered(_) => 3
       case Leaving(_) => 2)
    case DeleteFailed(why, _, _) => 1
    case GcCleanupQueued(cs) => Left(cs) + 2
    case GcCleaning(cs) => Left(cs) + 1
    case GcNext(cs) => Left(cs)
    case GcQueued(_, _, rest) => Left(rest) + 7
    case Finished => 0
  }

  /** The digest lock an operation is in or waits for, and whether it is in the tombstone lock or waits for it. */
  function Wants(s: Store, op: Op): Option<Key> {
    match op
    case StageQueued(ref, _) => Some(ContentKey(ref))
    case StageVerifying(ref, _, _) => Some(ContentKey(ref))
    case StageBuilding(ref, _, _) => Some(ContentKey(ref))
    case StageCleaning(ref, _) => Some(ContentKey(ref))
    case HoldQueued(ref) => Some(ContentKey(ref))
    case HoldVerifying(ref, _) => Some(ContentKey(ref))
    case PublishQueued(t) => KeyOf(s, t)
    case PublishVerifying(t, _) => KeyOf(s, t)
    case PublishWriting(t, _) => KeyOf(s, t)
    case PublishWritten(t, _) => KeyOf(s, t)
    case ReleaseQueued(t) => KeyOf(s, t)
    case Deleting(_, k, _, _) => Some(k)
    case GcQueued(k, _, _) => Some(k)
    case _ => None
  }

  function KeyOf(s: Store, t: TokenId): Option<Key> { if t in s.tokens then Some(s.tokens[t].key) else None }

  predicate WantsTomb(op: Op) { op.GcCleanupQueued? || op.GcCleaning? || (op.Deleting? && !op.stage.Leaving?) }

  /** The queue of a lock: joined at the end, left from the front, else as it was. */
  ghost predicate QueueMoves<K>(q: seq<K>, q': seq<K>, o: K, was: bool, is_: bool) {
    && (was == is_ ==> q' == q)
    && (!was && is_ ==> q' == q + [o])
    && (was && !is_ ==> q != [] && q[0] == o && q' == q[1..])
  }

  ghost predicate Waits(s: Store, o: OpId, k: Key) { o in s.ops && Wants(s, s.ops[o]) == Some(k) }

  ghost predicate LinesMove(s: Store, s': Store, o: OpId) {
    forall k :: QueueMoves(Queue(s, k), Queue(s', k), o, Waits(s, o, k), Waits(s', o, k))
  }

  /** A step of `o`: no other operation changes, it has come further, and the queues follow. */
  ghost predicate MovesOn(s: Store, s': Store, o: OpId) {
    && o in s'.ops && s'.ops == s.ops[o := s'.ops[o]]
    && (o in s.ops ==> Rank(s'.ops[o]) < Rank(s.ops[o]))
    && (forall t :: t in s.tokens ==> t in s'.tokens && s'.tokens[t].key == s.tokens[t].key)
    && LinesMove(s, s', o)
    && QueueMoves(s.tombstoneQueue, s'.tombstoneQueue, o, o in s.ops && WantsTomb(s.ops[o]), WantsTomb(s'.ops[o]))
  }

  /** The same calls, locks and handles, whatever became of the entries and the phases. */
  ghost predicate SameCalls(s: Store, s': Store) {
    && s'.ops == s.ops && s'.digestQueues == s.digestQueues && s'.tombstoneQueue == s.tombstoneQueue
    && forall t :: t in s.tokens ==> t in s'.tokens && s'.tokens[t].key == s.tokens[t].key
  }

  lemma EntryStays(s: Store, t: TokenId, p: Phase, e: EntryId, en: Entry)
    ensures SameCalls(s, SetEntry(s, e, en))
    ensures t in s.tokens ==> SameCalls(s, SetPhase(SetEntry(s, e, en), t, p))
  {
    hide Rank, Wants;
  }

  lemma PhaseStays(s: Store, t: TokenId, p: Phase)
    requires t in s.tokens
    ensures SameCalls(s, SetPhase(s, t, p))
  {
    hide Rank, Wants;
  }

  predicate Outside(s: Store, op: Op) { Wants(s, op).None? && !WantsTomb(op) }

  /** Three kinds of step: outside all locks, out of the digest lock, and from there on into the tombstone lock. */
  lemma StaysMoves(s: Store, s1: Store, o: OpId, op: Op)
    requires o in s.ops && SameCalls(s, s1) && Outside(s, s.ops[o]) && Outside(s1, op) && Rank(op) < Rank(s.ops[o])
    ensures MovesOn(s, Become(s1, o, op), o)
  {
    hide Rank;
    OutsideBecome(s1, o, op);
  }

  lemma OutsideBecome(s: Store, o: OpId, op: Op)
    requires Outside(s, op)
    ensures Outside(Become(s, o, op), op)
  {
  }

  /** Still in the same lock. */
  lemma GoesOnMoves(s: Store, o: OpId, op: Op)
    requires o in s.ops && Wants(s, op) == Wants(s, s.ops[o]) && !WantsTomb(op) && !WantsTomb(s.ops[o])
    requires Rank(op) < Rank(s.ops[o]) && !op.Deleting?
    ensures MovesOn(s, Become(s, o, op), o)
  {
    hide Rank;
  }

  lemma LeavesMoves(s: Store, s1: Store, o: OpId, k: Key, op: Op)
    requires o in s.ops && SameCalls(s, s1) && Wants(s, s.ops[o]) == Some(k) && AtHead(s, k, o) && Outside(s1, op)
    requires Rank(op) < Rank(s.ops[o]) && !WantsTomb(s.ops[o])
    ensures Queue(Become(s1, o, op), k) != [] && MovesOn(s, Dequeue(Become(s1, o, op), k), o)
  {
    hide Rank, Wants;
    LeftBecome(s1, o, k, op);
  }

  lemma LeftBecome(s: Store, o: OpId, k: Key, op: Op)
    requires Queue(s, k) != [] && Outside(s, op)
    ensures Outside(Dequeue(Become(s, o, op), k), op)
  {
  }

  lemma DeletesMoves(s: Store, s1: Store, o: OpId, why: DeleteReason, k: Key, e: EntryId)
    requires o in s.ops && SameCalls(s, s1) && Wants(s, s.ops[o]) == Some(k) && !WantsTomb(s.ops[o])
    requires AfterDeletion(why) + 6 < Rank(s.ops[o])
    ensures MovesOn(s, BeginDelete(s1, o, why, k, e), o)
  {
    hide AfterDeletion;
  }

  /** A deletion in the tombstone lock goes on, or leaves it. */
  lemma StageMoves(s: Store, o: OpId, stage: DeleteStage)
    requires o in s.ops && s.ops[o].Deleting? && !s.ops[o].stage.Leaving? && !stage.Leaving?
    requires Rank(s.ops[o].(stage := stage)) < Rank(s.ops[o])
    ensures MovesOn(s, StageOf(s, o, stage), o)
  {
    hide Rank;
  }

  lemma LeaveTombMoves(s: Store, s1: Store, o: OpId, failed: bool)
    requires o in s.ops && s.ops[o].Deleting? && !s.ops[o].stage.Leaving? && SameCalls(s, s1) && AtTombHead(s, o)
    ensures MovesOn(s, LeaveTomb(s1, o, failed), o)
  {
    hide AfterDeletion;
  }

  lemma JoinsMoves(s: Store, o: OpId, k: Key, op: Op)
    requires o in s.ops && Outside(s, s.ops[o]) && Rank(op) < Rank(s.ops[o]) && !WantsTomb(op)
    requires Wants(s, op) == Some(k) && op.GcQueued?
    ensures MovesOn(s, Enqueue(Become(s, o, op), k, o), o)
  {
    hide Rank;
  }

  // ---------------------------------------------------------------- every step moves its operation on

  lemma StageCallMoves(s: Store, o: OpId, ns: Namespace, expected: Option<nat>)
    requires CanStage(s, o, ns, expected)
    ensures MovesOn(s, StageCall(s, o, ns, expected), o)
  {
    hide ContentKey;
  }

  lemma StageFailMoves(s: Store, o: OpId)
    requires CanStageFail(s, o)
    ensures MovesOn(s, StageFail(s, o), o)
  {
    hide ContentKey;
  }

  lemma StageStreamedMoves(s: Store, o: OpId, ref: Ref)
    requires CanStageStreamed(s, o, ref)
    ensures MovesOn(s, StageStreamed(s, o, ref), o)
  {
    hide ContentKey;
  }

  lemma StageEnterMoves(s: Store, o: OpId, aborted: bool)
    requires CanStageEnter(s, o)
    ensures MovesOn(s, StageEnter(s, o, aborted), o)
  {
    hide StageEnter, ContentKey, MovesOn, Queue, Dequeue, Become;
    var op, leaves := StageEnterCase(s, o, aborted);
    if leaves { LeavesMoves(s, s, o, ContentKey(s.ops[o].ref), op); } else { GoesOnMoves(s, o, op); }
  }

  lemma StageVerifiedMoves(s: Store, o: OpId, ok: bool, t: TokenId)
    requires CanStageVerified(s, o, t)
    ensures MovesOn(s, StageVerified(s, o, ok, t), o)
  {
    hide ContentKey;
  }

  lemma StageBuildMoves(s: Store, o: OpId)
    requires CanStageBuild(s, o)
    ensures MovesOn(s, StageBuild(s, o), o)
  {
    hide ContentKey;
  }

  lemma StageCommitMoves(s: Store, o: OpId, e: EntryId, t: TokenId)
    requires CanStageCommit(s, o, e, t)
    ensures MovesOn(s, StageCommit(s, o, e, t), o)
  {
    hide ContentKey;
  }

  lemma StageBuildFailMoves(s: Store, o: OpId)
    requires CanStageBuildFail(s, o)
    ensures MovesOn(s, StageBuildFail(s, o), o)
  {
    hide ContentKey, MovesOn, Queue, Dequeue;
    var StageBuilding(ref, reserved, p) := s.ops[o];
    if p == NoDirectory { LeavesMoves(s, s, o, ContentKey(ref), StageUnwinding(reserved)); } else {
      GoesOnMoves(s, o, StageCleaning(ref, reserved));
    }
  }

  lemma StageCleanedMoves(s: Store, o: OpId, ok: bool)
    requires CanStageCleaned(s, o)
    ensures MovesOn(s, StageCleaned(s, o, ok), o)
  {
    hide ContentKey;
  }

  lemma StageUnwindMoves(s: Store, o: OpId)
    requires CanStageUnwind(s, o)
    ensures MovesOn(s, StageUnwind(s, o), o)
  {
    hide ContentKey;
  }

  lemma PublishCallMoves(s: Store, o: OpId, t: TokenId)
    requires CanPublishCall(s, o, t)
    ensures MovesOn(s, PublishCall(s, o, t), o)
  {
    hide ContentKey;
  }

  lemma PublishEnterMoves(s: Store, o: OpId)
    requires CanPublishEnter(s, o)
    ensures MovesOn(s, PublishEnter(s, o), o)
  {
    hide ContentKey, MovesOn, Queue, Dequeue, Become;
    var t := s.ops[o].token;
    var k := s.tokens[t].key;
    if s.tokens[t].phase == Active && k in s.entries && s.entries[k] in s.heap
       && !s.heap[s.entries[k]].deleting && !s.heap[s.entries[k]].published {
      GoesOnMoves(s, o, PublishVerifying(t, s.entries[k]));
    } else {
      LeavesMoves(s, s, o, k, Finished);
    }
  }

  lemma PublishVerifiedMoves(s: Store, o: OpId, ok: bool)
    requires CanPublishVerified(s, o)
    ensures MovesOn(s, PublishVerified(s, o, ok), o)
  {
    hide ContentKey;
  }

  lemma PublishWriteMoves(s: Store, o: OpId, ok: bool)
    requires CanPublishWrite(s, o)
    ensures MovesOn(s, PublishWrite(s, o, ok), o)
  {
    hide ContentKey;
  }

  lemma PublishDoneMoves(s: Store, o: OpId)
    requires CanPublishDone(s, o)
    ensures MovesOn(s, PublishDone(s, o), o)
  {
    hide ContentKey;
  }

  lemma PinCallMoves(s: Store, o: OpId, ref: Ref)
    requires CanPinCall(s, o, ref)
    ensures MovesOn(s, PinCall(s, o, ref), o)
  {
    hide ContentKey;
  }

  lemma PinOpenedMoves(s: Store, o: OpId, t: TokenId)
    requires CanPinOpened(s, o, t)
    ensures MovesOn(s, PinOpened(s, o, t), o)
  {
    hide ContentKey;
  }

  lemma PinFailMoves(s: Store, o: OpId)
    requires CanPinFail(s, o)
    ensures MovesOn(s, PinFail(s, o), o)
  {
    hide ContentKey;
  }

  lemma HoldCallMoves(s: Store, o: OpId, ref: Ref)
    requires CanHoldCall(s, o)
    ensures MovesOn(s, HoldCall(s, o, ref), o)
  {
    hide ContentKey;
  }

  lemma HoldEnterMoves(s: Store, o: OpId)
    requires CanHoldEnter(s, o)
    ensures MovesOn(s, HoldEnter(s, o), o)
  {
    hide ContentKey, MovesOn, Queue, Dequeue, Become;
    var ref := s.ops[o].ref;
    var k := ContentKey(ref);
    if k in s.entries && s.entries[k] in s.heap && !s.heap[s.entries[k]].deleting
       && s.heap[s.entries[k]].ref == ref && s.heap[s.entries[k]].published {
      GoesOnMoves(s, o, HoldVerifying(ref, s.entries[k]));
    } else {
      LeavesMoves(s, s, o, k, Finished);
    }
  }

  lemma HoldVerifiedMoves(s: Store, o: OpId, ok: bool, t: TokenId)
    requires CanHoldVerified(s, o, t)
    ensures MovesOn(s, HoldVerified(s, o, ok, t), o)
  {
    hide ContentKey;
  }

  lemma ReleaseCallMoves(s: Store, o: OpId, t: TokenId)
    requires CanReleaseCall(s, o, t)
    ensures MovesOn(s, ReleaseCall(s, o, t), o)
  {
    hide ContentKey;
  }

  lemma ReleaseEnterMoves(s: Store, o: OpId)
    requires CanReleaseEnter(s, o)
    ensures MovesOn(s, ReleaseEnter(s, o), o)
  {
    hide ContentKey, MovesOn, Lowered, Raised, Unused, Queue, Dequeue, Become, BeginDelete, SameCalls, SetPhase;
    var t := s.ops[o].token;
    var k := s.tokens[t].key;
    if k !in s.entries || s.entries[k] !in s.heap {
      PhaseStays(s, t, Released);
      LeavesMoves(s, SetPhase(s, t, Released), o, k, Finished);
    } else {
      var e := s.entries[k];
      var en := Lowered(s.heap[e], s.tokens[t].kind);
      EntryStays(s, t, Released, e, en);
      if !en.published && Unused(en) {
        EntryStays(s, t, Removing(o), e, en.(deleting := true));
        DeletesMoves(s, SetPhase(SetEntry(s, e, en.(deleting := true)), t, Removing(o)), o, ByRelease(t), k, e);
      } else {
        LeavesMoves(s, SetPhase(SetEntry(s, e, en), t, Released), o, k, Finished);
      }
    }
  }

  lemma DeleteEnterMoves(s: Store, o: OpId)
    requires CanDeleteEnter(s, o)
    ensures MovesOn(s, DeleteEnter(s, o), o)
  {
    hide ContentKey, MovesOn, StageOf, LeaveTomb, AfterDeletion;
    var op := s.ops[o];
    if op.key in s.entries && s.entries[op.key] == op.entry { StageMoves(s, o, Renaming); } else {
      LeaveTombMoves(s, s, o, false);
    }
  }

  lemma DeleteRenameMoves(s: Store, o: OpId, ok: bool, tomb: TombId)
    requires CanDeleteRename(s, o, tomb)
    ensures MovesOn(s, DeleteRename(s, o, ok, tomb), o)
  {
    hide ContentKey;
  }

  lemma DeleteUnregisterMoves(s: Store, o: OpId)
    requires CanDeleteUnregister(s, o)
    ensures MovesOn(s, DeleteUnregister(s, o), o)
  {
    hide ContentKey;
  }

  lemma DeleteRemoveMoves(s: Store, o: OpId, ok: bool)
    requires CanDeleteRemove(s, o)
    ensures MovesOn(s, DeleteRemove(s, o, ok), o)
  {
    hide ContentKey, DeleteRemove;
    DeleteRemoveShape(s, o, ok);
  }

  lemma DeleteLeaveMoves(s: Store, o: OpId)
    requires CanDeleteLeave(s, o)
    ensures MovesOn(s, DeleteLeave(s, o), o)
  {
    hide ContentKey, MovesOn, Lowered, Raised, Unused, Queue, Dequeue, Become, BeginDelete;
    var Deleting(why, k, e, stage) := s.ops[o];
    if stage.failed {
      LeavesMoves(s, s, o, k, DeleteFailed(why, k, e));
    } else {
      match why
      case ByRelease(t) => LeavesMoves(s, SetPhase(s, t, Released), o, k, Finished);
      case ByGc(rest) => LeavesMoves(s, s, o, k, GcNext(rest));
    }
  }

  lemma DeleteCatchMoves(s: Store, o: OpId)
    requires CanDeleteCatch(s, o)
    ensures MovesOn(s, DeleteCatch(s, o), o)
  {
    hide ContentKey, MovesOn, Lowered, Raised, Unused, Queue, Dequeue, Become, BeginDelete;
    var DeleteFailed(why, k, e) := s.ops[o];
    var en := s.heap[e].(deleting := false);
    match why
    case ByRelease(t) =>
      if k in s.entries && s.entries[k] == e {
        StaysMoves(s, SetPhase(SetEntry(s, e, Raised(en, s.tokens[t].kind)), t, Active), o, Finished);
      } else {
        StaysMoves(s, SetPhase(s, t, Released), o, Finished);
      }
    case ByGc(_) => StaysMoves(s, if k in s.entries && s.entries[k] == e then SetEntry(s, e, en) else s, o, Finished);
  }

  lemma GcCallMoves(s: Store, o: OpId, candidates: seq<(Key, EntryId)>)
    requires CanGcCall(s, o, candidates)
    ensures MovesOn(s, GcCall(s, o, candidates), o)
  {
    hide ContentKey;
  }

  lemma GcCleanEnterMoves(s: Store, o: OpId)
    requires CanGcCleanEnter(s, o)
    ensures MovesOn(s, GcCleanEnter(s, o), o)
  {
    hide ContentKey;
  }

  lemma GcCleanDoneMoves(s: Store, o: OpId)
    requires CanGcCleanDone(s, o)
    ensures MovesOn(s, GcCleanDone(s, o), o)
  {
    hide ContentKey;
  }

  lemma GcAdvanceMoves(s: Store, o: OpId)
    requires CanGcAdvance(s, o)
    ensures MovesOn(s, GcAdvance(s, o), o)
  {
    hide ContentKey, MovesOn, Lowered, Raised, Unused, Queue, Dequeue, Become, BeginDelete;
    var cs := s.ops[o].candidates;
    if cs == [] {
      StaysMoves(s, s, o, Finished);
    } else {
      JoinsMoves(s, o, cs[0].0, GcQueued(cs[0].0, cs[0].1, cs[1..]));
    }
  }

  lemma GcEnterMoves(s: Store, o: OpId)
    requires CanGcEnter(s, o)
    ensures MovesOn(s, GcEnter(s, o), o)
  {
    hide ContentKey, MovesOn, Lowered, Raised, Unused, Queue, Dequeue, Become, BeginDelete;
    var GcQueued(k, e, rest) := s.ops[o];
    var en := s.heap[e];
    if en.published && Unused(en) {
      DeletesMoves(s, SetEntry(s, e, en.(deleting := true)), o, ByGc(rest), k, e);
    } else {
      LeavesMoves(s, s, o, k, GcNext(rest));
    }
  }

  lemma GcCleanFailMoves(s: Store, o: OpId, tomb: TombId)
    requires CanGcClean(s, o, tomb)
    ensures MovesOn(s, GcClean(s, o, tomb, false), o)
  {
    hide ContentKey;
  }

  /** The one step that does not: a collection removes an old tombstone, and goes on. */
  predicate Clears(a: Action) { a.Removal? && a.removal.AGcClean? && a.removal.ok }

  lemma ClearsOne(s: Store, a: Action)
    requires Can(s, a) && Clears(a)
    ensures var s' := Do(s, a);
      && s'.ops == s.ops && s'.tokens == s.tokens && s'.digestQueues == s.digestQueues
      && s'.tombstoneQueue == s.tombstoneQueue && s'.diskTombs < s.diskTombs && Actor(a) in s.ops
  {
    hide ContentKey, Sum;
    DropTombShape(s, a.removal.tomb);
  }

  lemma StageActionMoves(s: Store, a: StageAction)
    requires CanStageAction(s, a)
    ensures MovesOn(s, DoStageAction(s, a), a.o)
  {
    hide *;
    StageActionIs(s, a);
    match a
    case AStageCall(o, ns, expected) => StageCallMoves(s, o, ns, expected);
    case AStageFail(o) => StageFailMoves(s, o);
    case AStageStreamed(o, ref) => StageStreamedMoves(s, o, ref);
    case AStageEnter(o, aborted) => StageEnterMoves(s, o, aborted);
    case AStageVerified(o, ok, t) => StageVerifiedMoves(s, o, ok, t);
    case AStageBuild(o) => StageBuildMoves(s, o);
    case AStageCommit(o, e, t) => StageCommitMoves(s, o, e, t);
    case AStageBuildFail(o) => StageBuildFailMoves(s, o);
    case AStageCleaned(o, ok) => StageCleanedMoves(s, o, ok);
    case AStageUnwind(o) => StageUnwindMoves(s, o);
  }

  lemma HandleActionMoves(s: Store, a: HandleAction)
    requires CanHandleAction(s, a)
    ensures MovesOn(s, DoHandleAction(s, a), a.o)
  {
    hide *;
    HandleActionIs(s, a);
    match a
    case APublishCall(o, t) => PublishCallMoves(s, o, t);
    case APublishEnter(o) => PublishEnterMoves(s, o);
    case APublishVerified(o, ok) => PublishVerifiedMoves(s, o, ok);
    case APublishWrite(o, ok) => PublishWriteMoves(s, o, ok);
    case APublishDone(o) => PublishDoneMoves(s, o);
    case APinCall(o, ref) => PinCallMoves(s, o, ref);
    case APinOpened(o, t) => PinOpenedMoves(s, o, t);
    case APinFail(o) => PinFailMoves(s, o);
    case AHoldCall(o, ref) => HoldCallMoves(s, o, ref);
    case AHoldEnter(o) => HoldEnterMoves(s, o);
    case AHoldVerified(o, ok, t) => HoldVerifiedMoves(s, o, ok, t);
    case AReleaseCall(o, t) => ReleaseCallMoves(s, o, t);
    case AReleaseEnter(o) => ReleaseEnterMoves(s, o);
  }

  lemma RemovalActionMoves(s: Store, a: RemovalAction)
    requires CanRemovalAction(s, a) && !(a.AGcClean? && a.ok)
    ensures MovesOn(s, DoRemovalAction(s, a), a.o)
  {
    hide *;
    RemovalActionIs(s, a);
    match a
    case ADeleteEnter(o) => DeleteEnterMoves(s, o);
    case ADeleteRename(o, ok, tomb) => DeleteRenameMoves(s, o, ok, tomb);
    case ADeleteUnregister(o) => DeleteUnregisterMoves(s, o);
    case ADeleteRemove(o, ok) => DeleteRemoveMoves(s, o, ok);
    case ADeleteLeave(o) => DeleteLeaveMoves(s, o);
    case ADeleteCatch(o) => DeleteCatchMoves(s, o);
    case AGcCall(o, candidates) => GcCallMoves(s, o, candidates);
    case AGcCleanEnter(o) => GcCleanEnterMoves(s, o);
    case AGcClean(o, tomb, ok) => GcCleanFailMoves(s, o, tomb);
    case AGcCleanDone(o) => GcCleanDoneMoves(s, o);
    case AGcAdvance(o) => GcAdvanceMoves(s, o);
    case AGcEnter(o) => GcEnterMoves(s, o);
  }

  lemma StepMoves(s: Store, a: Action)
    requires Can(s, a) && !Clears(a)
    ensures MovesOn(s, Do(s, a), Actor(a))
  {
    hide MovesOn, CanStageAction, DoStageAction, CanHandleAction, DoHandleAction, CanRemovalAction, DoRemovalAction;
    match a
    case Stage(x) => StageActionMoves(s, x);
    case Handle(x) => HandleActionMoves(s, x);
    case Removal(x) => RemovalActionMoves(s, x);
  }

  // ---------------------------------------------------------------- a call takes a bounded number of steps

  /** The steps of one operation, tombstones removed on the way not counted. */
  function StepsOf(actions: seq<Action>, o: OpId): nat {
    if actions == [] then 0
    else
      StepsOf(actions[..|actions| - 1], o) +
      if Actor(actions[|actions| - 1]) == o && !Clears(actions[|actions| - 1]) then 1 else 0
  }

  /** Whatever else runs, an operation under way takes at most as many further steps as its rank says. */
  lemma {:induction false} StepsAreBounded(states: seq<Store>, actions: seq<Action>, i: nat, j: nat, o: OpId)
    requires IsRun(states, actions) && i <= j <= |actions| && o in states[i].ops
    ensures o in states[j].ops
    ensures StepsOf(actions[i..j], o) + Rank(states[j].ops[o]) <= Rank(states[i].ops[o])
    decreases j
  {
    hide Can, Do, Clears, MovesOn, IsInit;
    if i < j {
      StepsAreBounded(states, actions, i, j - 1, o);
      assert actions[i..j][..|actions[i..j]| - 1] == actions[i..j - 1];
      if Clears(actions[j - 1]) {
        ClearsOne(states[j - 1], actions[j - 1]);
      } else {
        StepMoves(states[j - 1], actions[j - 1]);
        OneMoves(states[j - 1], states[j], Actor(actions[j - 1]), o);
      }
    } else {
      assert actions[i..j] == [];
    }
  }

  lemma OneMoves(s: Store, s': Store, o: OpId, x: OpId)
    requires MovesOn(s, s', o) && x in s.ops
    ensures x in s'.ops && (if x == o then Rank(s'.ops[x]) < Rank(s.ops[x]) else s'.ops[x] == s.ops[x])
  {
    hide Rank, Wants;
  }

  lemma {:induction false} StepsFromFront(actions: seq<Action>, o: OpId)
    requires actions != []
    ensures StepsOf(actions, o) ==
      StepsOf(actions[1..], o) + if Actor(actions[0]) == o && !Clears(actions[0]) then 1 else 0
    decreases |actions|
  {
    var n := |actions| - 1;
    if n > 0 {
      StepsFromFront(actions[..n], o);
      assert actions[..n][1..] == actions[1..][..n - 1];
    }
  }

  /** The rank with which a call begins. */
  function Most(a: Action): nat {
    if a.Removal? && a.removal.AGcCall? then 8 * |a.removal.candidates| + 3 else 8
  }

  lemma StageCallRank(s: Store, a: StageAction)
    requires CanStageAction(s, a) && a.o !in s.ops
    ensures a.o in DoStageAction(s, a).ops && Rank(DoStageAction(s, a).ops[a.o]) <= 8
  {
    hide ContentKey, Queue;
    if a.AStageCall? {}
  }

  lemma HandleCallRank(s: Store, a: HandleAction)
    requires CanHandleAction(s, a) && a.o !in s.ops
    ensures a.o in DoHandleAction(s, a).ops && Rank(DoHandleAction(s, a).ops[a.o]) <= 8
  {
    hide ContentKey, Queue, Lowered, Raised;
    if a.APublishCall? {} else if a.APinCall? {} else if a.AHoldCall? {} else if a.AReleaseCall? {}
  }

  lemma RemovalCallRank(s: Store, a: RemovalAction)
    requires CanRemovalAction(s, a) && a.o !in s.ops
    ensures a.AGcCall? && a.o in DoRemovalAction(s, a).ops
    ensures Rank(DoRemovalAction(s, a).ops[a.o]) == 8 * |a.candidates| + 3
  {
    hide ContentKey, Queue, Lowered, Raised;
  }

  lemma CallRank(s: Store, a: Action)
    requires Can(s, a) && Actor(a) !in s.ops
    ensures !Clears(a) && Actor(a) in Do(s, a).ops && Rank(Do(s, a).ops[Actor(a)]) <= Most(a)
  {
    hide CanStageAction, DoStageAction, CanHandleAction, DoHandleAction, CanRemovalAction, DoRemovalAction, Rank;
    match a
    case Stage(x) => StageCallRank(s, x);
    case Handle(x) => HandleCallRank(s, x);
    case Removal(x) => RemovalCallRank(s, x);
  }

  /** A call is over after nine steps at the most, a collection after eight for each candidate and four more. */
  lemma CallsAreBounded(states: seq<Store>, actions: seq<Action>, i: nat, j: nat)
    requires IsRun(states, actions) && i < j <= |actions| && Actor(actions[i]) !in states[i].ops
    ensures StepsOf(actions[i..j], Actor(actions[i])) <= Most(actions[i]) + 1
  {
    hide Can, Do, Clears, IsInit, Rank;
    var o := Actor(actions[i]);
    CallRank(states[i], actions[i]);
    StepsAreBounded(states, actions, i + 1, j, o);
    StepsFromFront(actions[i..j], o);
    assert actions[i..j][0] == actions[i] && actions[i..j][1..] == actions[i + 1..j];
  }

  // ---------------------------------------------------------------- the queues hold exactly who waits

  ghost predicate LineOk(s: Store, k: Key) {
    Distinct(Queue(s, k)) && forall o :: o in Queue(s, k) <==> Waits(s, o, k)
  }

  ghost predicate TombLineOk(s: Store) {
    Distinct(s.tombstoneQueue) && forall o :: o in s.tombstoneQueue <==> o in s.ops && WantsTomb(s.ops[o])
  }

  ghost predicate QueuesInv(s: Store) { (forall k :: LineOk(s, k)) && TombLineOk(s) }

  /** A publication or release knows its handle. */
  predicate KnowsToken(s: Store, op: Op) {
    op.PublishQueued? || op.PublishVerifying? || op.PublishWriting? || op.PublishWritten? || op.ReleaseQueued? ==>
      op.token in s.tokens
  }

  lemma TokenIsKnown(s: Store, o: OpId)
    requires Inv(s) && o in s.ops
    ensures KnowsToken(s, s.ops[o])
  {
    hide QuotaInv, CountsInv, LockInv, EntriesInv, TokensInv, DeleterInv, CandidatesOk, CandidateOk, DyingOk, OnDisk;
    assert OpOk(s, o, s.ops[o]);
  }

  lemma LineKept<K>(q: seq<K>, q': seq<K>, o: K, was: bool, is_: bool)
    requires Distinct(q) && QueueMoves(q, q', o, was, is_) && (o in q <==> was)
    ensures Distinct(q') && (o in q' <==> is_) && forall x :: x != o ==> (x in q' <==> x in q)
  {
    if was && !is_ {
      assert q == [o] + q';
      assert o !in q';
    }
  }

  lemma WaitsSame(s: Store, s': Store, o: OpId, x: OpId, k: Key)
    requires MovesOn(s, s', o) && x != o && (x in s.ops ==> KnowsToken(s, s.ops[x]))
    ensures Waits(s', x, k) <==> Waits(s, x, k)
  {
    hide Rank, ContentKey, QueueMoves;
  }

  lemma QueuesKept(s: Store, s': Store, o: OpId)
    requires Inv(s) && QueuesInv(s) && MovesOn(s, s', o)
    ensures QueuesInv(s')
  {
    hide Inv, Rank, Wants, Distinct, QueueMoves, Queue;
    forall k ensures LineOk(s', k) {
      assert LineOk(s, k);
      LineKept(Queue(s, k), Queue(s', k), o, Waits(s, o, k), Waits(s', o, k));
      forall x | x != o ensures Waits(s', x, k) <==> Waits(s, x, k) {
        if x in s.ops { TokenIsKnown(s, x); }
        WaitsSame(s, s', o, x, k);
      }
    }
    LineKept(s.tombstoneQueue, s'.tombstoneQueue, o, o in s.ops && WantsTomb(s.ops[o]), WantsTomb(s'.ops[o]));
  }

  lemma QueuesSame(s: Store, s': Store)
    requires QueuesInv(s) && s'.ops == s.ops && s'.tokens == s.tokens && s'.digestQueues == s.digestQueues
    requires s'.tombstoneQueue == s.tombstoneQueue
    ensures QueuesInv(s')
  {
    hide Distinct, ContentKey;
    forall k ensures LineOk(s', k) {
      assert LineOk(s, k);
      assert forall o :: Waits(s', o, k) <==> Waits(s, o, k);
    }
  }

  lemma StepKeepsQueues(s: Store, a: Action)
    requires Inv(s) && QueuesInv(s) && Can(s, a)
    ensures QueuesInv(Do(s, a))
  {
    hide Inv, QueuesInv, Can, Do, MovesOn, Clears;
    if Clears(a) {
      ClearsOne(s, a);
      QueuesSame(s, Do(s, a));
    } else {
      StepMoves(s, a);
      QueuesKept(s, Do(s, a), Actor(a));
    }
  }

  lemma InitQueues(s: Store)
    requires IsInit(s)
    ensures QueuesInv(s)
  {
  }

  lemma {:induction false} RunQueues(states: seq<Store>, actions: seq<Action>, i: nat)
    requires IsRun(states, actions) && i <= |actions|
    ensures QueuesInv(states[i])
  {
    hide Inv, QueuesInv, Can, Do, IsInit;
    if i == 0 {
      InitQueues(states[0]);
    } else {
      RunQueues(states, actions, i - 1);
      RunInv(states, actions, i - 1);
      StepKeepsQueues(states[i - 1], actions[i - 1]);
    }
  }

  // ---------------------------------------------------------------- nobody waits for ever

  /** The operation can take a step. */
  ghost predicate CanMove(s: Store, o: OpId) { exists a :: Can(s, a) && !Clears(a) && Actor(a) == o }

  predicate Under(s: Store, o: OpId) { o in s.ops && !s.ops[o].Finished? }

  lemma FreshToken(s: Store) returns (t: TokenId)
    ensures t !in s.tokens
  {
    t := Above(s.tokens.Keys);
  }

  lemma FreshTomb(s: Store) returns (tomb: TombId)
    ensures tomb !in s.tombstones && tomb !in s.diskTombs
  {
    tomb := Above(s.tombstones.Keys + s.diskTombs);
  }

  lemma {:induction false} Above(ids: set<nat>) returns (n: nat)
    ensures forall i :: i in ids ==> i < n
    decreases |ids|
  {
    n := 0;
    if ids != {} {
      var i :| i in ids;
      var m := Above(ids - {i});
      n := Max(m, i + 1);
      assert forall j :: j in ids ==> j == i || j in ids - {i};
    }
  }

  /** What an operation under way can rely on. */
  lemma OpFacts(s: Store, o: OpId)
    requires Inv(s) && o in s.ops
    ensures OpOk(s, o, s.ops[o])
  {
    hide QuotaInv, CountsInv, LockInv, EntriesInv, TokensInv, DeleterInv, OpOk;
    assert OpsInv(s);
  }

  /** Neither in a lock nor waiting for one. */
  lemma FreeMoves(s: Store, o: OpId)
    requires Under(s, o) && OpOk(s, o, s.ops[o]) && Wants(s, s.ops[o]).None? && !WantsTomb(s.ops[o])
    requires KnowsToken(s, s.ops[o])
    ensures CanMove(s, o)
  {
    hide CandidatesOk, CandidateOk, OnDisk, Steady;
    match s.ops[o]
    case Staging(_, _, _) => MovesBy(s, Stage(AStageFail(o)));
    case StageUnwinding(_) => MovesBy(s, Stage(AStageUnwind(o)));
    case Pinning(_, e) => PinnedEntry(s, o); MovesBy(s, Handle(APinFail(o)));
    case DeleteFailed(_, _, _) => MovesBy(s, Removal(ADeleteCatch(o)));
    case GcNext(_) => MovesBy(s, Removal(AGcAdvance(o)));
    case _ =>
  }

  lemma PinnedEntry(s: Store, o: OpId)
    requires o in s.ops && s.ops[o].Pinning? && OpOk(s, o, s.ops[o])
    ensures s.ops[o].entry in s.heap
  {
    hide Rank;
  }

  lemma MovesBy(s: Store, a: Action)
    requires Can(s, a) && !Clears(a)
    ensures CanMove(s, Actor(a))
  {
    hide Can, Rank;
  }

  /** At the head of its digest lock, and not about the tombstone lock. */
  lemma HeadMoves(s: Store, o: OpId, k: Key)
    requires o in s.ops && OpOk(s, o, s.ops[o]) && Wants(s, s.ops[o]) == Some(k) && AtHead(s, k, o)
    requires !WantsTomb(s.ops[o])
    ensures CanMove(s, o)
  {
    hide OpOk, CanMove, ContentKey, Queue;
    if s.ops[o].StageQueued? || s.ops[o].StageVerifying? || s.ops[o].StageBuilding? || s.ops[o].StageCleaning? {
      StageHeadMoves(s, o, k);
    } else {
      HandleHeadMoves(s, o, k);
    }
  }

  lemma StageHeadMoves(s: Store, o: OpId, k: Key)
    requires o in s.ops && OpOk(s, o, s.ops[o]) && Wants(s, s.ops[o]) == Some(k) && AtHead(s, k, o)
    requires s.ops[o].StageQueued? || s.ops[o].StageVerifying? || s.ops[o].StageBuilding? || s.ops[o].StageCleaning?
    ensures CanMove(s, o)
  {
    hide CandidatesOk, OnDisk, ContentKey, Queue, CanMove;
    var t := FreshToken(s);
    match s.ops[o]
    case StageQueued(_, _) => MovesBy(s, Stage(AStageEnter(o, true)));
    case StageVerifying(_, _, _) => MovesBy(s, Stage(AStageVerified(o, false, t)));
    case StageBuilding(_, _, _) => MovesBy(s, Stage(AStageBuildFail(o)));
    case StageCleaning(_, _) => MovesBy(s, Stage(AStageCleaned(o, true)));
  }

  lemma HandleHeadMoves(s: Store, o: OpId, k: Key)
    requires o in s.ops && OpOk(s, o, s.ops[o]) && Wants(s, s.ops[o]) == Some(k) && AtHead(s, k, o)
    requires !(s.ops[o].StageQueued? || s.ops[o].StageVerifying? || s.ops[o].StageBuilding? || s.ops[o].StageCleaning?)
    requires !WantsTomb(s.ops[o])
    ensures CanMove(s, o)
  {
    hide CandidatesOk, OnDisk, ContentKey, Queue, CanMove;
    var t := FreshToken(s);
    match s.ops[o]
    case PublishQueued(_) => MovesBy(s, Handle(APublishEnter(o)));
    case PublishVerifying(_, _) => MovesBy(s, Handle(APublishVerified(o, false)));
    case PublishWriting(_, _) => MovesBy(s, Handle(APublishWrite(o, false)));
    case PublishWritten(_, _) => MovesBy(s, Handle(APublishDone(o)));
    case HoldQueued(_) => MovesBy(s, Handle(AHoldEnter(o)));
    case HoldVerifying(_, _) => MovesBy(s, Handle(AHoldVerified(o, false, t)));
    case ReleaseQueued(_) => MovesBy(s, Handle(AReleaseEnter(o)));
    case Deleting(_, _, _, _) => MovesBy(s, Removal(ADeleteLeave(o)));
    case GcQueued(_, _, _) => MovesBy(s, Removal(AGcEnter(o)));
    case _ =>
  }

  lemma TombHeadMoves(s: Store, o: OpId)
    requires o in s.ops && OpOk(s, o, s.ops[o]) && WantsTomb(s.ops[o]) && AtTombHead(s, o)
    ensures CanMove(s, o)
  {
    hide CandidatesOk, OnDisk, ContentKey, Queue, Wants;
    var tomb := FreshTomb(s);
    match s.ops[o]
    case GcCleanupQueued(_) => MovesBy(s, Removal(AGcCleanEnter(o)));
    case GcCleaning(_) => MovesBy(s, Removal(AGcCleanDone(o)));
    case Deleting(_, _, _, Waiting) => MovesBy(s, Removal(ADeleteEnter(o)));
    case Deleting(_, _, _, Renaming) => MovesBy(s, Removal(ADeleteRename(o, false, tomb)));
    case Deleting(_, _, _, Renamed(_)) => MovesBy(s, Removal(ADeleteUnregister(o)));
    case Deleting(_, _, _, Unregistered(_)) => MovesBy(s, Removal(ADeleteRemove(o, false)));
    case _ =>
  }

  /** In a state with a call under way, some call under way can take a step: the locks cannot block each other. */
  lemma SomeoneMoves(s: Store, o: OpId) returns (x: OpId)
    requires Inv(s) && QueuesInv(s) && Under(s, o)
    ensures Under(s, x) && CanMove(s, x)
  {
    hide Inv, OpOk, Wants, CanMove, QueuesInv;
    OpFacts(s, o);
    TokenIsKnown(s, o);
    if WantsTomb(s.ops[o]) {
      x := TombHead(s, o);
    } else if Wants(s, s.ops[o]).None? {
      FreeMoves(s, o);
      x := o;
    } else {
      var k := Wants(s, s.ops[o]).value;
      x := LineHead(s, o, k);
      OpFacts(s, x);
      if WantsTomb(s.ops[x]) { x := TombHead(s, x); } else { HeadMoves(s, x, k); }
    }
  }

  lemma TombHead(s: Store, o: OpId) returns (x: OpId)
    requires Inv(s) && QueuesInv(s) && o in s.ops && WantsTomb(s.ops[o])
    ensures Under(s, x) && CanMove(s, x)
  {
    hide Inv, OpOk, Wants, CanMove, LineOk, Distinct;
    assert o in s.tombstoneQueue;
    x := s.tombstoneQueue[0];
    assert x in s.tombstoneQueue;
    OpFacts(s, x);
    TombHeadMoves(s, x);
  }

  lemma LineHead(s: Store, o: OpId, k: Key) returns (x: OpId)
    requires QueuesInv(s) && o in s.ops && Wants(s, s.ops[o]) == Some(k)
    ensures Under(s, x) && Wants(s, s.ops[x]) == Some(k) && AtHead(s, k, x)
  {
    hide Queue, Distinct, TombLineOk, ContentKey;
    assert LineOk(s, k) && Waits(s, o, k);
    assert o in Queue(s, k);
    x := Queue(s, k)[0];
    assert x in Queue(s, k);
    assert Waits(s, x, k);
  }

  // ---------------------------------------------------------------- every call can finish

  ghost function Ranks(s: Store): map<OpId, nat> { map o | o in s.ops :: Rank(s.ops[o]) }

  /** The actions lead from one state to the other. */
  ghost predicate Plays(s: Store, actions: seq<Action>, s': Store)
    decreases |actions|
  {
    if actions == [] then s' == s
    else Can(s, actions[0]) && Actor(actions[0]) in s.ops && Plays(Do(s, actions[0]), actions[1..], s')
  }

  lemma RanksFall(s: Store, s': Store, o: OpId)
    requires MovesOn(s, s', o) && o in s.ops
    ensures Sum(Ranks(s')) < Sum(Ranks(s)) && s'.ops.Keys == s.ops.Keys
  {
    hide Sum, Rank, Wants, WantsTomb, Waits, QueueMoves;
    var before, after := Ranks(s), Ranks(s');
    assert after == before[o := Rank(s'.ops[o])];
    assert after - {o} == before - {o};
    SumRemove(before, o);
    SumRemove(after, o);
  }

  /** From every reachable state the calls under way can all be brought to their end, by their own steps. */
  lemma {:induction false} CallsCanFinish(s: Store) returns (actions: seq<Action>, s': Store)
    requires Inv(s) && QueuesInv(s)
    ensures Plays(s, actions, s') && s'.ops.Keys == s.ops.Keys && forall o :: o in s'.ops ==> s'.ops[o].Finished?
    decreases Sum(Ranks(s))
  {
    hide Inv, QueuesInv, Sum, Ranks, Can, Do, Clears, MovesOn;
    if o :| Under(s, o) {
      var x := SomeoneMoves(s, o);
      var a :| Can(s, a) && !Clears(a) && Actor(a) == x;
      StepMoves(s, a);
      RanksFall(s, Do(s, a), x);
      StepKept(s, a);
      StepKeepsQueues(s, a);
      var rest;
      rest, s' := CallsCanFinish(Do(s, a));
      actions := [a] + rest;
      assert actions[0] == a && actions[1..] == rest;
    } else {
      actions, s' := [], s;
      assert forall o :: o in s.ops ==> Under(s, o) || s.ops[o].Finished?;
    }
  }

  /** The same for the states of a run. */
  lemma EveryCallCanFinish(states: seq<Store>, actions: seq<Action>, i: nat)
    requires IsRun(states, actions) && i <= |actions|
    ensures exists more, s' ::
      Plays(states[i], more, s') && s'.ops.Keys == states[i].ops.Keys && forall o :: o in s'.ops ==> s'.ops[o].Finished?
  {
    hide Inv, QueuesInv, Plays, Can, Do;
    RunInv(states, actions, i);
    RunQueues(states, actions, i);
    var more, s' := CallsCanFinish(states[i]);
  }
}

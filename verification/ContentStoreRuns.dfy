/** Whole runs of the content store: any interleaving of any number of calls, from the empty store. */
module ContentStoreRuns {
  import opened Prelude
  import opened ContentRefs
  import opened ContentStore
  import opened ContentStoreInvariant
  import opened ContentStoreSafety

  lemma InitShape(s: Store)
    requires IsInit(s)
    ensures ShapeInv(s)
  {
    hide Sum;
  }

  lemma InitCounts(s: Store)
    requires IsInit(s)
    ensures CountsInv(s)
  {
  }

  lemma InitQuota(s: Store)
    requires IsInit(s)
    ensures QuotaInv(s)
  {
    hide Sum;
    assert EntrySizes(s) == map[] && Reservations(s) == map[];
    SumEmpty<Key>();
    SumEmpty<TombId>();
    SumEmpty<OpId>();
  }

  lemma InitInv(s: Store)
    requires IsInit(s)
    ensures Inv(s)
  {
    hide *;
    InitShape(s);
    InitCounts(s);
    InitQuota(s);
    Glue(s);
  }

  /** What the actions are called. */
  lemma StageActionIs(s: Store, a: StageAction)
    ensures a.AStageCall? ==>
      CanStageAction(s, a) == CanStage(s, a.o, a.ns, a.expected) &&
        DoStageAction(s, a) == StageCall(s, a.o, a.ns, a.expected)
    ensures a.AStageFail? ==> CanStageAction(s, a) == CanStageFail(s, a.o) && DoStageAction(s, a) == StageFail(s, a.o)
    ensures a.AStageStreamed? ==>
      CanStageAction(s, a) == CanStageStreamed(s, a.o, a.ref) && DoStageAction(s, a) == StageStreamed(s, a.o, a.ref)
    ensures a.AStageEnter? ==>
      CanStageAction(s, a) == CanStageEnter(s, a.o) && DoStageAction(s, a) == StageEnter(s, a.o, a.aborted)
    ensures a.AStageVerified? ==>
      CanStageAction(s, a) == CanStageVerified(s, a.o, a.t) && DoStageAction(s, a) == StageVerified(s, a.o, a.ok, a.t)
    ensures a.AStageBuild? ==>
      CanStageAction(s, a) == CanStageBuild(s, a.o) && DoStageAction(s, a) == StageBuild(s, a.o)
    ensures a.AStageCommit? ==>
      CanStageAction(s, a) == CanStageCommit(s, a.o, a.e, a.t) && DoStageAction(s, a) == StageCommit(s, a.o, a.e, a.t)
    ensures a.AStageBuildFail? ==>
      CanStageAction(s, a) == CanStageBuildFail(s, a.o) && DoStageAction(s, a) == StageBuildFail(s, a.o)
    ensures a.AStageCleaned? ==>
      CanStageAction(s, a) == CanStageCleaned(s, a.o) && DoStageAction(s, a) == StageCleaned(s, a.o, a.ok)
    ensures a.AStageUnwind? ==>
      CanStageAction(s, a) == CanStageUnwind(s, a.o) && DoStageAction(s, a) == StageUnwind(s, a.o)
  {
    hide CanStage, StageCall, CanStageFail, StageFail, CanStageStreamed, StageStreamed, CanStageEnter, StageEnter,
      CanStageVerified, StageVerified, CanStageBuild, StageBuild, CanStageCommit, StageCommit, CanStageBuildFail,
      StageBuildFail, CanStageCleaned, StageCleaned, CanStageUnwind, StageUnwind;
  }

  lemma StageActionKept(s: Store, a: StageAction)
    requires Inv(s) && CanStageAction(s, a)
    ensures Good(s, DoStageAction(s, a), a.o)
  {
    hide *;
    var o, s' := a.o, DoStageAction(s, a);
    StageActionIs(s, a);
    InvParts(s);
    OpFact(s, o);
    match a {
      case AStageCall(_, ns, expected) =>
        StageCallSteps(s, o, ns, expected);
        LocalSteps(s, s', o);
        StageCallUncounted(s, o, ns, expected);
        StageCallQuota(s, o, ns, expected);
        UncountedCounts(s, s', o);
        Compose(s, s', o, 0);
      case AStageFail(_) => StageFailSteps(s, o); LocalKept(s, s', o);
      case AStageStreamed(_, ref) => StageStreamedSteps(s, o, ref); LocalKept(s, s', o);
      case AStageEnter(_, aborted) =>
        StageEnterSteps(s, o, aborted);
        LocalKept(s, s', o);
      case AStageVerified(_, ok, t) =>
        if ok {
          StageVerifiedSteps(s, o, t);
          CountingSteps(s, s', o);
          StageVerifiedCounts(s, o, t);
          StageVerifiedQuota(s, o, t);
          Compose(s, s', o, t);
        } else {
          StageRefusedSteps(s, o, t);
          LocalKept(s, s', o);
        }
      case AStageBuild(_) =>
        StageBuildSteps(s, o);
        StageBuildQuiet(s, o);
        DiskLocalKept(s, s', o);
      case AStageCommit(_, e, t) =>
        StageCommitFramed(s, o, e, t);
        StageCommitSettled(s, o, e, t);
        StepsOf(s, s', o);
        StageCommitCounts(s, o, e, t);
        StageCommitQuota(s, o, e, t);
        Compose(s, s', o, t);
      case AStageBuildFail(_) =>
        StageBuildFailSteps(s, o);
        LocalKept(s, s', o);
      case AStageCleaned(_, removed) =>
        StageCleanedSteps(s, o, removed);
        DiskLocalKept(s, s', o);
      case AStageUnwind(_) =>
        StageUnwindSteps(s, o);
        LocalSteps(s, s', o);
        StageUnwindUncounted(s, o);
        StageUnwindQuota(s, o);
        UncountedCounts(s, s', o);
        Compose(s, s', o, 0);
    }
  }

  /** What the actions are called. */
  lemma HandleActionIs(s: Store, a: HandleAction)
    ensures a.APublishCall? ==>
      CanHandleAction(s, a) == CanPublishCall(s, a.o, a.t) && DoHandleAction(s, a) == PublishCall(s, a.o, a.t)
    ensures a.APublishEnter? ==>
      CanHandleAction(s, a) == CanPublishEnter(s, a.o) && DoHandleAction(s, a) == PublishEnter(s, a.o)
    ensures a.APublishVerified? ==>
      CanHandleAction(s, a) == CanPublishVerified(s, a.o) && DoHandleAction(s, a) == PublishVerified(s, a.o, a.ok)
    ensures a.APublishWrite? ==>
      CanHandleAction(s, a) == CanPublishWrite(s, a.o) && DoHandleAction(s, a) == PublishWrite(s, a.o, a.ok)
    ensures a.APublishDone? ==>
      CanHandleAction(s, a) == CanPublishDone(s, a.o) && DoHandleAction(s, a) == PublishDone(s, a.o)
    ensures a.APinCall? ==>
      CanHandleAction(s, a) == CanPinCall(s, a.o, a.ref) && DoHandleAction(s, a) == PinCall(s, a.o, a.ref)
    ensures a.APinOpened? ==>
      CanHandleAction(s, a) == CanPinOpened(s, a.o, a.t) && DoHandleAction(s, a) == PinOpened(s, a.o, a.t)
    ensures a.APinFail? ==> CanHandleAction(s, a) == CanPinFail(s, a.o) && DoHandleAction(s, a) == PinFail(s, a.o)
    ensures a.AHoldCall? ==>
      CanHandleAction(s, a) == CanHoldCall(s, a.o) && DoHandleAction(s, a) == HoldCall(s, a.o, a.ref)
    ensures a.AHoldEnter? ==> CanHandleAction(s, a) == CanHoldEnter(s, a.o) && DoHandleAction(s, a) == HoldEnter(s, a.o)
    ensures a.AHoldVerified? ==>
      CanHandleAction(s, a) == CanHoldVerified(s, a.o, a.t) && DoHandleAction(s, a) == HoldVerified(s, a.o, a.ok, a.t)
    ensures a.AReleaseCall? ==>
      CanHandleAction(s, a) == CanReleaseCall(s, a.o, a.t) && DoHandleAction(s, a) == ReleaseCall(s, a.o, a.t)
    ensures a.AReleaseEnter? ==>
      CanHandleAction(s, a) == CanReleaseEnter(s, a.o) && DoHandleAction(s, a) == ReleaseEnter(s, a.o)
  {
    hide CanPublishCall, PublishCall, CanPublishEnter, PublishEnter, CanPublishVerified, PublishVerified,
      CanPublishWrite, PublishWrite, CanPublishDone, PublishDone, CanPinCall, PinCall, CanPinOpened, PinOpened,
      CanPinFail, PinFail, CanHoldCall, HoldCall, CanHoldEnter, HoldEnter, CanHoldVerified, HoldVerified,
      CanReleaseCall, ReleaseCall, CanReleaseEnter, ReleaseEnter;
  }

  lemma HandleActionKept(s: Store, a: HandleAction)
    requires Inv(s) && CanHandleAction(s, a)
    ensures Good(s, DoHandleAction(s, a), a.o)
  {
    hide *;
    var o, s' := a.o, DoHandleAction(s, a);
    HandleActionIs(s, a);
    InvParts(s);
    OpFact(s, o);
    match a {
      case APublishCall(_, t) => PublishCallSteps(s, o, t); LocalKept(s, s', o);
      case APublishEnter(_) => PublishEnterSteps(s, o); LocalKept(s, s', o);
      case APublishVerified(_, ok) => PublishVerifiedSteps(s, o, ok); LocalKept(s, s', o);
      case APublishWrite(_, ok) =>
        PublishWriteFramed(s, o, ok);
        PublishWriteSettled(s, o, ok);
        PublishWriteQuiet(s, o, ok);
        UncountedKept(s, s', o);
      case APublishDone(_) =>
        PublishDoneFramed(s, o);
        PublishDoneSettled(s, o);
        PublishDoneQuiet(s, o);
        UncountedKept(s, s', o);
      case APinCall(_, ref) =>
        PinCallSteps(s, o, ref);
        PinCallCounts(s, o, ref);
        CountingKept(s, s', o, 0);
      case APinOpened(_, t) =>
        PinOpenedSteps(s, o, t);
        PinOpenedCounts(s, o, t);
        CountingKept(s, s', o, t);
      case APinFail(_) =>
        PinCountedPositive(s, o);
        PinFailSteps(s, o);
        PinFailCounts(s, o);
        CountingKept(s, s', o, 0);
      case AHoldCall(_, ref) => HoldCallSteps(s, o, ref); LocalKept(s, s', o);
      case AHoldEnter(_) => HoldEnterSteps(s, o); LocalKept(s, s', o);
      case AHoldVerified(_, ok, t) =>
        HoldVerifiedSteps(s, o, ok, t);
        HoldVerifiedCounts(s, o, ok, t);
        CountingKept(s, s', o, t);
      case AReleaseCall(_, t) =>
        ReleaseCallSteps(s, o, t);
        ReleaseCallCounts(s, o, t);
        CountingKept(s, s', o, t);
      case AReleaseEnter(_) =>
        IsReleaseReady(s, o);
        ReleaseEnterCounts(s, o);
        if LastRelease(s, o) {
          LastReleaseAlone(s, o);
          LastReleaseFramed(s, o);
          LastReleaseSettled(s, o);
          StepsOf(s, s', o);
          QuotaUntouched(s, s', o);
          Compose(s, s', o, TokenOf(s, o));
        } else {
          ReleaseEnterSteps(s, o);
          CountingKept(s, s', o, TokenOf(s, o));
        }
    }
  }

  /** What the actions are called. */
  lemma RemovalActionIs(s: Store, a: RemovalAction)
    ensures a.ADeleteEnter? ==>
      CanRemovalAction(s, a) == CanDeleteEnter(s, a.o) && DoRemovalAction(s, a) == DeleteEnter(s, a.o)
    ensures a.ADeleteRename? ==>
      CanRemovalAction(s, a) == CanDeleteRename(s, a.o, a.tomb) &&
        DoRemovalAction(s, a) == DeleteRename(s, a.o, a.ok, a.tomb)
    ensures a.ADeleteUnregister? ==>
      CanRemovalAction(s, a) == CanDeleteUnregister(s, a.o) && DoRemovalAction(s, a) == DeleteUnregister(s, a.o)
    ensures a.ADeleteRemove? ==>
      CanRemovalAction(s, a) == CanDeleteRemove(s, a.o) && DoRemovalAction(s, a) == DeleteRemove(s, a.o, a.ok)
    ensures a.ADeleteLeave? ==>
      CanRemovalAction(s, a) == CanDeleteLeave(s, a.o) && DoRemovalAction(s, a) == DeleteLeave(s, a.o)
    ensures a.ADeleteCatch? ==>
      CanRemovalAction(s, a) == CanDeleteCatch(s, a.o) && DoRemovalAction(s, a) == DeleteCatch(s, a.o)
    ensures a.AGcCall? ==>
      CanRemovalAction(s, a) == CanGcCall(s, a.o, a.candidates) && DoRemovalAction(s, a) == GcCall(s, a.o, a.candidates)
    ensures a.AGcCleanEnter? ==>
      CanRemovalAction(s, a) == CanGcCleanEnter(s, a.o) && DoRemovalAction(s, a) == GcCleanEnter(s, a.o)
    ensures a.AGcClean? ==>
      CanRemovalAction(s, a) == CanGcClean(s, a.o, a.tomb) && DoRemovalAction(s, a) == GcClean(s, a.o, a.tomb, a.ok)
    ensures a.AGcCleanDone? ==>
      CanRemovalAction(s, a) == CanGcCleanDone(s, a.o) && DoRemovalAction(s, a) == GcCleanDone(s, a.o)
    ensures a.AGcAdvance? ==>
      CanRemovalAction(s, a) == CanGcAdvance(s, a.o) && DoRemovalAction(s, a) == GcAdvance(s, a.o)
    ensures a.AGcEnter? ==> CanRemovalAction(s, a) == CanGcEnter(s, a.o) && DoRemovalAction(s, a) == GcEnter(s, a.o)
  {
    hide CanDeleteEnter, DeleteEnter, CanDeleteRename, DeleteRename, CanDeleteUnregister, DeleteUnregister,
      CanDeleteRemove, DeleteRemove, CanDeleteLeave, DeleteLeave, CanDeleteCatch, DeleteCatch, CanGcCall, GcCall,
      CanGcCleanEnter, GcCleanEnter, CanGcClean, GcClean, CanGcCleanDone, GcCleanDone, CanGcAdvance, GcAdvance,
      CanGcEnter, GcEnter;
  }

  lemma RemovalActionKept(s: Store, a: RemovalAction)
    requires Inv(s) && CanRemovalAction(s, a)
    ensures Good(s, DoRemovalAction(s, a), a.o)
  {
    hide *;
    var o, s' := a.o, DoRemovalAction(s, a);
    RemovalActionIs(s, a);
    InvParts(s);
    OpFact(s, o);
    match a {
      case ADeleteEnter(_) => DeleteEnterSteps(s, o); LocalKept(s, s', o);
      case ADeleteRename(_, ok, tomb) =>
        DeleteRenameFramed(s, o, ok, tomb);
        DeleteRenameSettled(s, o, ok, tomb);
        DeleteRenameQuiet(s, o, ok, tomb);
        UncountedKept(s, s', o);
      case ADeleteUnregister(_) =>
        DeleteUnregisterFramed(s, o);
        DeleteUnregisterSettled(s, o);
        StepsOf(s, s', o);
        DeleteUnregisterUncounted(s, o);
        DeleteUnregisterQuota(s, o);
        UncountedCounts(s, s', o);
        Compose(s, s', o, 0);
      case ADeleteRemove(_, ok) =>
        DeleteRemoveSteps(s, o, ok);
        TombLocalSteps(s, s', o);
        DeleteRemoveQuota(s, o, ok);
        DeleteRemoveUncounted(s, o, ok);
        UncountedCounts(s, s', o);
        Compose(s, s', o, 0);
      case ADeleteLeave(_) =>
        if LeavesFailed(s, o) {
          DeleteLeaveFailedSteps(s, o);
          LocalKept(s, s', o);
        } else {
          DeleteLeaveTokens(s, o);
          if ForRelease(s, o) { DeleteLeaveReleaseSteps(s, o); } else { DeleteLeaveGcSteps(s, o); }
          EndingKept(s, s', o, TokenOf(s, o));
        }
      case ADeleteCatch(_) =>
        if StillRegistered(s, o) {
          DeleteCatchUndoFramed(s, o);
          DeleteCatchUndoSettled(s, o);
          StepsOf(s, s', o);
          DeletingIsUnused(s, o);
          DeleteCatchUndoCounts(s, o);
          QuotaUntouched(s, s', o);
          Compose(s, s', o, TokenOf(s, o));
        } else {
          DeleteCatchGoneSteps(s, o);
          DeleteCatchGoneQuiet(s, o);
          DeleteCatchGoneTokens(s, o);
          EndingKept(s, s', o, TokenOf(s, o));
        }
      case AGcCall(_, candidates) => GcCallSteps(s, o, candidates); LocalKept(s, s', o);
      case AGcCleanEnter(_) => GcCleanEnterSteps(s, o); LocalKept(s, s', o);
      case AGcClean(_, tomb, ok) =>
        if ok {
          GcCleanSteps(s, o, tomb);
          TombLocalSteps(s, s', o);
          GcCleanUncounted(s, o, tomb);
          GcCleanQuota(s, o, tomb);
          UncountedCounts(s, s', o);
          Compose(s, s', o, 0);
        } else {
          GcCleanFailedSteps(s, o, tomb);
          LocalKept(s, s', o);
        }
      case AGcCleanDone(_) => GcCleanDoneSteps(s, o); LocalKept(s, s', o);
      case AGcAdvance(_) => GcAdvanceSteps(s, o); LocalKept(s, s', o);
      case AGcEnter(_) =>
        if Collectable(s, o) {
          CollectableIsAlone(s, o);
          GcEnterFramed(s, o);
          GcEnterSettled(s, o);
          StepsOf(s, s', o);
          GcEnterCounts(s, o);
          QuotaUntouched(s, s', o);
          Compose(s, s', o, 0);
        } else {
          GcEnterSkipSteps(s, o);
          LocalKept(s, s', o);
        }
    }
  }

  /** The operation whose action it is. */
  function Actor(a: Action): OpId {
    match a case Stage(x) => x.o case Handle(x) => x.o case Removal(x) => x.o
  }

  lemma StepGood(s: Store, a: Action)
    requires Inv(s) && Can(s, a)
    ensures Good(s, Do(s, a), Actor(a))
  {
    hide Inv, Good, CanStageAction, CanHandleAction, CanRemovalAction, DoStageAction, DoHandleAction, DoRemovalAction;
    match a {
      case Stage(x) => StageActionKept(s, x);
      case Handle(x) => HandleActionKept(s, x);
      case Removal(x) => RemovalActionKept(s, x);
    }
  }

  lemma StepKept(s: Store, a: Action)
    requires Inv(s) && Can(s, a)
    ensures Inv(Do(s, a)) && Steps(s, Do(s, a), Actor(a))
  {
    hide *;
    StepGood(s, a);
    GoodMeans(s, Do(s, a), Actor(a));
  }

  /** The invariant holds in every state of every run. */
  lemma {:induction false} RunInv(states: seq<Store>, actions: seq<Action>, i: nat)
    requires IsRun(states, actions) && i < |states|
    ensures Inv(states[i])
    decreases i
  {
    hide Inv, Can, Do, IsInit;
    if i == 0 {
      InitInv(states[0]);
    } else {
      RunInv(states, actions, i - 1);
      StepKept(states[i - 1], actions[i - 1]);
    }
  }

  // ---------------------------------------------------------------- what every run guarantees

  predicate IsCounted(tok: Token) { tok.phase.Active? || tok.phase.Releasing? }

  /** Content that a hold or pin counts on is registered, not being deleted, and complete on disk. */
  lemma CountedContentIsSafe(states: seq<Store>, actions: seq<Action>, i: nat, t: TokenId)
    requires IsRun(states, actions) && i < |states| && t in states[i].tokens && IsCounted(states[i].tokens[t])
    ensures var s := states[i]; var tok := s.tokens[t];
            && Steady(s, tok.key, tok.entry) && OnDisk(s, tok.key, tok.entry)
            && (tok.kind == PinToken ==> s.heap[tok.entry].published)
  {
    hide IsRun, Inv, CountOk, OnDisk;
    RunInv(states, actions, i);
    TokenFact(states[i], t);
    EntryFact(states[i], states[i].tokens[t].key);
  }

  lemma RenamesDying(s: Store, o: OpId, tomb: TombId)
    requires OpFine(s, o) && CanDeleteRename(s, o, tomb)
    ensures o in s.ops && s.ops[o].Deleting? && s.ops[o].entry in s.heap && s.heap[s.ops[o].entry].deleting
    ensures Registered(s, s.ops[o].key, s.ops[o].entry)
  {
    hide OnDisk, CandidatesOk;
  }

  lemma DyingIsDrained(s: Store, e: EntryId)
    requires CountsInv(s) && e in s.heap && s.heap[e].deleting
    ensures s.heap[e].holds == 0 && s.heap[e].pins == 0
  {
    hide CountedTokens, PinsInFlight;
    assert CountOk(s, e);
  }

  lemma UncountedKey(s: Store, e: EntryId, k: Key)
    requires TokensInv(s) && Registered(s, k, e) && s.heap[e].deleting
    ensures forall t :: t in s.tokens && IsCounted(s.tokens[t]) ==> s.tokens[t].key != k
  {
    hide OnDisk;
    forall t | t in s.tokens && IsCounted(s.tokens[t]) ensures s.tokens[t].key != k { assert TokenOk(s, s.tokens[t]); }
  }

  lemma ActionTaken(states: seq<Store>, actions: seq<Action>, i: nat)
    requires IsRun(states, actions) && i < |actions|
    ensures i < |states| && Can(states[i], actions[i])
  {
    hide Can, Do, IsInit;
  }

  lemma RenameTaken(s: Store, o: OpId, ok: bool, tomb: TombId)
    requires Can(s, Removal(ADeleteRename(o, ok, tomb)))
    ensures CanDeleteRename(s, o, tomb)
  {
    hide CanDeleteRename;
  }

  /** A directory is renamed to a tombstone only when no hold, pin or opening pin counts on its entry
      or even names its key. */
  lemma OnlyUncountedIsRenamed(states: seq<Store>, actions: seq<Action>, i: nat, o: OpId, ok: bool, tomb: TombId)
    requires IsRun(states, actions) && i < |actions| && actions[i] == Removal(ADeleteRename(o, ok, tomb))
    ensures var s := states[i];
            && o in s.ops && s.ops[o].Deleting? && NoUsers(s, s.ops[o].entry)
            && forall t :: t in s.tokens && IsCounted(s.tokens[t]) ==> s.tokens[t].key != s.ops[o].key
  {
    hide *;
    ActionTaken(states, actions, i);
    var s := states[i];
    RunInv(states, actions, i);
    RenameTaken(s, o, ok, tomb);
    InvParts(s);
    OpFact(s, o);
    RenamesDying(s, o, tomb);
    DyingIsDrained(s, s.ops[o].entry);
    UnusedIsAlone(s, s.ops[o].entry);
    UncountedKey(s, s.ops[o].entry, s.ops[o].key);
  }

  /** Bytes and items in use are exactly those of the registered entries and the tracked tombstones,
      reservations are exactly those of the stages under way, and the sum never passes the limits. */
  lemma QuotaConserved(states: seq<Store>, actions: seq<Action>, i: nat)
    requires IsRun(states, actions) && i < |states|
    ensures var s := states[i];
            && s.bytes == Sum(EntrySizes(s)) + Sum(s.tombstones) && s.items == |s.entries| + |s.tombstones|
            && s.reservedBytes == Sum(Reservations(s)) && s.reservedItems == |Reservations(s)|
            && s.bytes + s.reservedBytes <= s.limits.maxCacheBytes
            && s.items + s.reservedItems <= s.limits.maxCacheItems
  {
    var s := states[i];
    hide IsRun, Inv, Sum;
    RunInv(states, actions, i);
    InvParts(s);
    assert EntrySizes(s).Keys == s.entries.Keys;
  }

  /** Counters equal the handles they count plus the pins being opened, and a deletion needs both at zero. */
  lemma CountersAreHandles(states: seq<Store>, actions: seq<Action>, i: nat, e: EntryId)
    requires IsRun(states, actions) && i < |states| && e in states[i].heap
    ensures var s := states[i];
            && s.heap[e].holds == |CountedTokens(s.tokens, HoldToken, e)|
            && s.heap[e].pins == |CountedTokens(s.tokens, PinToken, e)| + |PinsInFlight(s.ops, e)|
            && (s.heap[e].deleting ==> s.heap[e].holds == 0 && s.heap[e].pins == 0)
  {
    hide IsRun, Inv, CountedTokens, PinsInFlight;
    RunInv(states, actions, i);
    InvParts(states[i]);
    assert CountOk(states[i], e);
  }

  /** When no call is in progress nothing is left behind: no reservation, no entry stuck in deletion,
      no handle between active and released. */
  lemma QuietStoreLeaksNothing(states: seq<Store>, actions: seq<Action>, i: nat)
    requires IsRun(states, actions) && i < |states| && forall o :: o in states[i].ops ==> states[i].ops[o] == Finished
    ensures var s := states[i];
            && s.reservedBytes == 0 && s.reservedItems == 0
            && (forall k :: k in s.entries ==> Steady(s, k, s.entries[k]) && OnDisk(s, k, s.entries[k]))
            && (forall e :: e in s.heap ==> s.heap[e].pins == |CountedTokens(s.tokens, PinToken, e)|)
  {
    hide *;
    var s := states[i];
    QuotaConserved(states, actions, i);
    RunInv(states, actions, i);
    InvParts(s);
    NothingReserved(s);
    forall k | k in s.entries ensures Steady(s, k, s.entries[k]) && OnDisk(s, k, s.entries[k]) { QuietEntry(s, k); }
    forall e | e in s.heap ensures s.heap[e].pins == |CountedTokens(s.tokens, PinToken, e)| { QuietPins(s, e); }
  }

  lemma NothingReserved(s: Store)
    requires forall o :: o in s.ops ==> s.ops[o] == Finished
    ensures Sum(Reservations(s)) == 0 && |Reservations(s)| == 0
  {
    assert Reservations(s) == map[];
    SumEmpty<OpId>();
  }

  lemma QuietEntry(s: Store, k: Key)
    requires forall o :: o in s.ops ==> s.ops[o] == Finished
    requires EntriesInv(s) && DeleterInv(s) && k in s.entries
    ensures Steady(s, k, s.entries[k]) && OnDisk(s, k, s.entries[k])
  {
    hide Sum;
    assert EntryOk(s, k);
    assert !HasKiller(s, s.entries[k]);
  }

  lemma QuietPins(s: Store, e: EntryId)
    requires forall o :: o in s.ops ==> s.ops[o] == Finished
    requires CountsInv(s) && e in s.heap
    ensures s.heap[e].pins == |CountedTokens(s.tokens, PinToken, e)|
  {
    hide CountedTokens;
    assert CountOk(s, e);
    assert PinsInFlight(s.ops, e) == {};
  }

  // ---------------------------------------------------------------- a handle lasts until it is released

  predicate Releases(a: Action, t: TokenId) {
    a.Handle? && a.handle.AReleaseCall? && a.handle.t == t
  }

  /** An entry keeps its reference and, once published, stays published. */
  ghost predicate Persists(s: Store, s': Store, e: EntryId) {
    e in s.heap ==> e in s'.heap && s'.heap[e].ref == s.heap[e].ref && (s.heap[e].published ==> s'.heap[e].published)
  }

  /** A handle is never forgotten and never changes its entry. */
  ghost predicate TokenStays(s: Store, s': Store, t: TokenId) {
    t in s.tokens ==> t in s'.tokens && s'.tokens[t].kind == s.tokens[t].kind && s'.tokens[t].entry == s.tokens[t].entry
  }

  /** Only the call of a release begins one. */
  lemma CallsRelease(s: Store, a: Action, t: TokenId)
    requires Can(s, a) && Actor(a) !in s.ops && Actor(a) in Do(s, a).ops && Do(s, a).ops[Actor(a)] == ReleaseQueued(t)
    ensures Releases(a, t)
  {
    hide CanStageAction, CanHandleAction, CanRemovalAction, DoStageAction, DoHandleAction, DoRemovalAction;
    match a {
      case Stage(x) => StageCallsNone(s, x, t);
      case Handle(x) => HandleCalls(s, x, t);
      case Removal(x) => RemovalCallsNone(s, x, t);
    }
  }

  lemma StageCallsNone(s: Store, a: StageAction, t: TokenId)
    requires CanStageAction(s, a) && a.o !in s.ops && a.o in DoStageAction(s, a).ops
    ensures DoStageAction(s, a).ops[a.o] != ReleaseQueued(t)
  {
    hide Unused;
    if a.AStageCall? {} else {}
  }

  lemma HandleCalls(s: Store, a: HandleAction, t: TokenId)
    requires CanHandleAction(s, a) && a.o !in s.ops && a.o in DoHandleAction(s, a).ops
    requires DoHandleAction(s, a).ops[a.o] == ReleaseQueued(t)
    ensures a.AReleaseCall? && a.t == t
  {
    hide Unused;
    match a {
      case APublishCall(_, _) =>
      case APinCall(_, _) =>
      case AHoldCall(_, _) =>
      case _ =>
    }
  }

  lemma RemovalCallsNone(s: Store, a: RemovalAction, t: TokenId)
    requires CanRemovalAction(s, a) && a.o !in s.ops && a.o in DoRemovalAction(s, a).ops
    ensures DoRemovalAction(s, a).ops[a.o] != ReleaseQueued(t)
  {
    hide Unused;
    if a.AGcCall? {} else {}
  }

  lemma StepFrame(s: Store, s': Store, o: OpId)
    requires Steps(s, s', o)
    ensures forall e :: Persists(s, s', e)
    ensures forall t :: TokenStays(s, s', t)
  {
    hide RegistryStep, DiskStep, QueuesStep, Settled;
    forall e ensures Persists(s, s', e) { if e in s.heap { assert EntryStep(s, s', o, e); } }
    forall t ensures TokenStays(s, s', t) { if t in s.tokens { assert TokenStep(s, s', o, t); } }
  }

  /** An active handle is as before, or its release was called. */
  lemma ActiveFrame(s: Store, s': Store, o: OpId, t: TokenId)
    requires Steps(s, s', o) && t in s.tokens && s.tokens[t].phase == Active
    ensures t in s'.tokens
    ensures s'.tokens[t] == s.tokens[t] || (o !in s.ops && o in s'.ops && s'.ops[o] == ReleaseQueued(t))
  {
    hide RegistryStep, DiskStep, QueuesStep, Settled, EntryStep;
    assert TokenStep(s, s', o, t);
  }

  lemma ActiveKept(s: Store, a: Action, t: TokenId)
    requires Inv(s) && Can(s, a) && t in s.tokens && s.tokens[t].phase == Active && !Releases(a, t)
    ensures var s' := Do(s, a); t in s'.tokens && s'.tokens[t] == s.tokens[t]
  {
    hide *;
    StepKept(s, a);
    ActiveFrame(s, Do(s, a), Actor(a), t);
    if Do(s, a).tokens[t] != s.tokens[t] { CallsRelease(s, a, t); }
  }

  /** A handle whose release has succeeded is never active again. */
  lemma ReleasedKept(s: Store, a: Action, t: TokenId)
    requires Inv(s) && Can(s, a) && t in s.tokens && s.tokens[t].phase == Released
    ensures var s' := Do(s, a); t in s'.tokens && s'.tokens[t].phase == Released
  {
    hide *;
    StepKept(s, a);
    ReleasedFrame(s, Do(s, a), Actor(a), t);
  }

  lemma ReleasedFrame(s: Store, s': Store, o: OpId, t: TokenId)
    requires Steps(s, s', o) && t in s.tokens && s.tokens[t].phase == Released
    ensures t in s'.tokens && s'.tokens[t].phase == Released
  {
    hide RegistryStep, DiskStep, QueuesStep, Settled, EntryStep;
    assert TokenStep(s, s', o, t);
  }

  lemma EntryPersists(s: Store, a: Action, e: EntryId)
    requires Inv(s) && Can(s, a)
    ensures Persists(s, Do(s, a), e)
  {
    hide *;
    StepKept(s, a);
    StepFrame(s, Do(s, a), Actor(a));
  }

  lemma HandleStays(s: Store, a: Action, t: TokenId)
    requires Inv(s) && Can(s, a)
    ensures TokenStays(s, Do(s, a), t)
  {
    hide *;
    StepKept(s, a);
    StepFrame(s, Do(s, a), Actor(a));
  }

  /** `t` is an active handle on published content with this reference. */
  predicate HoldsPublished(s: Store, t: TokenId, ref: Ref) {
    && t in s.tokens && s.tokens[t].phase == Active && s.tokens[t].entry in s.heap
    && s.heap[s.tokens[t].entry].ref == ref && s.heap[s.tokens[t].entry].published
  }

  lemma HoldsPublishedKept(s: Store, a: Action, t: TokenId, ref: Ref)
    requires Inv(s) && Can(s, a) && HoldsPublished(s, t, ref) && !Releases(a, t)
    ensures HoldsPublished(Do(s, a), t, ref)
  {
    hide Inv, Can, Do;
    ActiveKept(s, a, t);
    EntryPersists(s, a, s.tokens[t].entry);
  }

  /** What an active handle on published content means: the content can be read. */
  predicate Readable(s: Store, ref: Ref) {
    var k := ContentKey(ref);
    && k in s.entries && s.entries[k] in s.heap
    && s.heap[s.entries[k]].ref == ref && s.heap[s.entries[k]].published && !s.heap[s.entries[k]].deleting
    && k in s.disk && s.disk[k] == Blob(Some(ref), Some((ref, true)))
  }

  lemma HeldIsReadable(s: Store, t: TokenId, ref: Ref)
    requires Inv(s) && HoldsPublished(s, t, ref)
    ensures Readable(s, ref)
  {
    hide Inv;
    TokenFact(s, t);
    EntryFact(s, ContentKey(ref));
  }

  /** From the moment published content is held until its handle is released, it can be read, whatever
      else the store is asked to do. */
  lemma {:induction false} ReadableUntilReleased(states: seq<Store>, actions: seq<Action>, i: nat, j: nat,
      t: TokenId, ref: Ref)
    requires IsRun(states, actions) && i <= j < |states| && HoldsPublished(states[i], t, ref)
    requires forall m :: i <= m < j ==> !Releases(actions[m], t)
    ensures HoldsPublished(states[j], t, ref) && Readable(states[j], ref)
    decreases j
  {
    hide Inv, HoldsPublished, Readable, Can, Do, Releases;
    RunInv(states, actions, j);
    if i < j {
      ReadableUntilReleased(states, actions, i, j - 1, t, ref);
      RunInv(states, actions, j - 1);
      HoldsPublishedKept(states[j - 1], actions[j - 1], t, ref);
    }
    HeldIsReadable(states[j], t, ref);
  }
}

# Verification of the session gateway

This project models the concurrent and stateful core of the gateway in Dafny and proves properties of the
model. It covers:

- **Content custody.** The reference-counted content store of a server epoch, with its per-digest queues, quota,
  holds, pins, tombstones and collection, as a transition system whose steps are the code between two awaits
  (`ContentStore*.dfy`), and as an object whose methods are that code (`ContentStoreObject`);
  `ContentStoreProgress` is about getting to the end. The custodians
  through which a hold passes: frame, lease, transfer, transition ledger and generation owner, as a second
  transition system (`OwnerModel`, `LedgerModel`, `Custody*`) and as classes updated in place (`CustodyObjects`,
  `LedgerObject`). `EndToEnd` runs both together.
- **Externalization.** Bounded streaming encoding of text and JSON, reading it back, base64, the three byte
  counters, the schema walk, the externalizer and the decoders of the protocol (`Utf8` to `FrameExternalizer`).
- **Live projection.** Reduction, delta coalescing, cached sizes, the size estimate, prepare and commit tokens,
  idle compaction and turn reservations (`LiveProjection*`).
- **Session supervisor.** Fenced leases, aliases, workspace reservations and the restart budget (`SessionLease*`,
  `WorkspaceReservations`, `RestartBudget`, `SupervisorObject`).
- **Session files.** Line splitting, the history scan, backward paging, the active path, and the catalog's
  incremental scan (`LineSplit`, `History*`, `SessionScan`).
- **Raster admission.** Incremental RIFF/WebP and tail validators against the file formats (`RiffGrammar`,
  `RasterAdmission`).
- **The child process.** Decode outcomes with their leases, and the maps of pending requests (`PiDelivery`,
  `PendingRequests`).

Protocols are values with one function per step and theorems over all runs, because their steps interleave; a
step whose guard does not hold leaves the state as it is, and runs take only steps whose guards hold.
Objects that one call updates in place are classes. The contract of a method says what becomes of its fields, in
their own terms, and that this is the step of the transition system. SHA-256
is an injective function, random identifiers are fresh values, and file operations, aborts and deadlines are
nondeterministic. Proofs `hide` the definitions they do not need, which keeps their obligations small. Standards:
JSON is RFC 8259 (number grammar of section 6, strings of section 7), UTF-8 is section 3 of RFC 3629, base64 is
section 4 of RFC 4648, and WebP is section 2.3 of RFC 9649.

## Findings

Each of these is a property one would expect of the code and that fails on the input given; the exact condition
is proved beside it.

- **Large JSON loses the sign of zero.** The codec writes −0 as `0`, so a JSON root at or over the inline
  threshold that contains −0 (which `JSON.parse("-0")` produces) does not come back.
  `ProductCeilings.NegativeZerosAreLost` gives a tool result that meets every condition for being externalized
  and does not come back, for every threshold and content limit up to the ceiling of the codec.
- **Large text loses unpaired surrogates**, which UTF-8 replaces; `ContentProducts.TextComesBack` is exact.
  Together with the order of an image block's fields, which the externalizer rebuilds in one fixed order, these
  are all the ways in which a frame can differ after externalizing and reading back
  (`ExternalizedFrames.FrameRoundTrip`).
- **A lease revision can be announced twice.** After a session is forgotten its handle starts again with
  generation 0 and revision 1 (`SessionLeaseRevisions.ReopenedSessionRepeatsRevision`). A call that still has the
  runtime of a deleted session starts and reconciles it without asking whether it is tracked
  (packages/server/src/session-supervisor.ts:1039-1065), which throws away the lease of the reopened one; this is
  a run of the model (`SessionLeaseRevisions.LateReconcileRepeatsRevision`), in which the call may wait for the
  pool lock as long as it takes. Exactly: a commit keeps the revisions of its handle and generation climbing if
  and only if the lease entry it goes on from was not lost (`SessionLeaseLoss.NextCommitClimbsIff`,
  `SessionLeaseLoss.RevisionsClimbIff`). It need not repeat a revision at once, because a rekeyed lease may have
  begun above 1; but it always can be continued until it does (`SessionLeaseLoss.EveryRevisionCanRepeat`).
- **Read sizes matter at the line limit of the session scan.** A line of exactly 16 MiB followed by CR LF is
  accepted when CR and LF arrive in one read and refused when a read ends between them
  (`SessionScan.ReadSizesMatterAtTheLimit`); `SessionScan.ReadsDoNotMatterIff` is exact, for reads of up to 64 KiB.
  Lengths here are those of the raw bytes; the source measures the decoded text, in which each invalid byte becomes
  three.
- **A change in the middle of a session file goes unseen.** The checkpoint covers the first and last 64 KiB only.
  A rewritten file is still taken for an append if and only if it differs from the scanned part nowhere else
  (`SessionScan.MiddleEditIsUnseen`), and a message overwritten there is still counted by the resumed scan, while a
  scan of the file does not count it (`SessionScan.ResumedScanMissesEdit`).
- **A transition batch can be charged too little.** It is charged with the first sequence number for all of its
  events (packages/server/src/session-runtime.ts:3229-3232), which leaves out digits when the numbers grow longer
  (`LiveProjection.AheadChargeCanFallShort`); `LiveProjection.AheadChargedOverflowIff` says exactly when the suffix
  then really overflows, merging deltas included.

## Model

| member | source | states |
|---|---|---|
| ContentStoreRuns.CountedContentIsSafe | packages/server/src/epoch-content-store.ts:859-1033 | In every reachable state of every interleaving, content that an active or releasing hold or pin counts on is registered under its own key, not being deleted, and complete on disk |
| ContentStoreRuns.OnlyUncountedIsRenamed | packages/server/src/epoch-content-store.ts:1003-1033 | A digest directory is renamed to a tombstone only when no hold, no pin and no opening pin counts on its entry, although pins bypass the digest lock |
| ContentStoreRuns.CountersAreHandles | packages/server/src/epoch-content-store.ts:918-1001 | `holds` and `pins` of every entry equal the handles counting on it plus the pins being opened, and `deleting` implies both are zero |
| ContentStoreRuns.QuotaConserved | packages/server/src/epoch-content-store.ts:1024-1065 | Used bytes and items are those of the registered entries and the tracked tombstones, reservations those of the stages under way, and the sums stay within both limits, through failed renames and removals |
| ContentStoreRuns.QuietStoreLeaksNothing | packages/server/src/epoch-content-store.ts:1293-1339 | With no call in progress there is no reservation left, no entry stuck in deletion, and every pin counter is that of live pins |
| ContentStoreRuns.ReadableUntilReleased | packages/server/src/epoch-content-store.ts:905-1001 | From its publication under a hold until the release of that handle begins, content can be read, whatever other calls run |
| ContentStoreProgress.CallsAreBounded | packages/server/src/epoch-content-store.ts:816-1065 | Whatever else runs, a call of the store is over after nine steps of its own at the most, and a collection after eight for each candidate and four more, leftover tombstones not counted |
| ContentStoreProgress.SomeoneMoves | packages/server/src/epoch-content-store.ts:1350-1380 | In every state with a call under way some call can take a step: the digest locks and the tombstone lock, taken in that order, cannot block each other |
| ContentStoreProgress.EveryCallCanFinish | packages/server/src/epoch-content-store.ts:1350-1380 | From every reachable state all calls under way can be brought to their end by their own steps |
| ContentStoreObject.EpochContentStore.Reserve | packages/server/src/epoch-content-store.ts:1293-1311 | A reservation is given if and only if what is used, reserved and asked for stays within `maxCacheBytes`, and the items with one more within `maxCacheItems`; then exactly the reserved sums grow, otherwise nothing changes |
| ContentStoreObject.EpochContentStore.CommitStage | packages/server/src/epoch-content-store.ts:894-897 | The content is registered unpublished with one hold, which is handed out; its bytes and one item are used, and the reservation is gone |
| ContentStoreObject.EpochContentStore.BeginPin | packages/server/src/epoch-content-store.ts:918-928 | Pins exactly the published entry of that reference that is not being deleted, and no other entry changes |
| ContentStoreObject.EpochContentStore.LowerCounter | packages/server/src/epoch-content-store.ts:979-989 | Lowers the counter of the entry registered now, and says that it is to be deleted exactly when it is unpublished and was the last use |
| ContentStoreObject.EpochContentStore.CatchRelease | packages/server/src/epoch-content-store.ts:990-1000 | A failed deletion gives back flag, counter and handle exactly while the entry is still registered |
| ContentStoreObject.EpochContentStore.BeginCollect | packages/server/src/epoch-content-store.ts:1007-1013 | A candidate is collected exactly when it is published, unused and not being deleted |
| ContentStoreObject.EpochContentStore.Unregister | packages/server/src/epoch-content-store.ts:1024-1033 | The entry gives way to a tombstone with its share of the quota |
| ContentStoreObject.EpochContentStore.ReuseStage | packages/server/src/epoch-content-store.ts:869-876 | A stage that found its content gives the reservation back and hands out one more hold on it |
| ContentStoreObject.EpochContentStore.UnwindStage | packages/server/src/epoch-content-store.ts:835-839 | A stage that came to nothing gives its reservation back once |
| ContentStoreObject.EpochContentStore.HoldPublished | packages/server/src/epoch-content-store.ts:958-967 | One more hold on the published content, and no other counter changes |
| ContentStoreObject.EpochContentStore.MarkPublished | packages/server/src/epoch-content-store.ts:905-916 | The entry is published from the end of its publication on |
| ContentStoreObject.EpochContentStore.OpenPin | packages/server/src/epoch-content-store.ts:940-945 | An opened pin becomes an active handle of its entry |
| ContentStoreObject.EpochContentStore.FailPin | packages/server/src/epoch-content-store.ts:948-951 | A pin that failed to open lowers the counter it raised, with the clamp at zero |
| ContentStoreObject.EpochContentStore.CatchCollect | packages/server/src/epoch-content-store.ts:1015-1018 | A failed collection takes its flag back exactly while the entry is registered |
| ContentStoreObject.EpochContentStore.ForgetTombstone | packages/server/src/epoch-content-store.ts:1057-1065 | A removed tombstone gives its share of the quota back exactly if it was tracked |
| CustodyRuns.OneCustodian | packages/server/src/pi-payload-externalizer.ts:959-1034 | Every hold handed out by the store has exactly one custodian among frames, leases, transfers and owners |
| CustodyRuns.ReleasedAtMostOnce | packages/server/src/generation-content-owner.ts:125-236 | No release of any hold succeeds twice |
| CustodyRuns.BoxReleasesEachOnce | packages/server/src/pi-payload-externalizer.ts:1021-1034 | A frame, lease or transfer that did not pass its holds on has released none while pending, and has attempted each exactly once when its cleanup is over |
| CustodyRuns.ClosedOwnerReleasedAll | packages/server/src/generation-content-owner.ts:125-214 | An owner that reached closed released every hold it ever adopted successfully exactly once, however many attempts failed before |
| CustodyRuns.OpenOwnerKeepsReferences | packages/server/src/generation-content-owner.ts:88-123 | Until its release begins, each reference of an owner is kept by a primary hold on which no release was ever attempted; duplicate cleanup never drops the last one |
| CustodyRuns.FailedDrainIsCovered | packages/server/src/transition-payload-ledger.ts:189-250 | A failed drain leaves an adopted prefix and exactly the former suffix, and the release of the remainder lets go of exactly that suffix |
| CustodyRuns.SealedAdoptsNothing | packages/server/src/generation-content-owner.ts:79-123 | From the step that seals an owner on, in every later state of every run, it is not active, no adoption into it succeeds, directly or from a ledger, and the holds it ever adopted stay the same |
| CustodyProgress.OwnerCanRelease | packages/server/src/generation-content-owner.ts:125-214 | Whatever subset of its holds cannot be released, an owner not yet being released can get to the end of a release that frees exactly the others, and is closed if and only if there is no such hold |
| CustodyProgress.BoxCanBeCleaned | packages/server/src/pi-payload-externalizer.ts:1003-1034 | Whatever subset of its holds cannot be released, a pending frame, lease or transfer can be cleaned up: exactly the others are released, and nobody else is concerned |
| CustodyProgress.NoHoldIsStranded | packages/server/src/generation-content-owner.ts:125-214 | In every reachable state each hold handed out is past its only attempt or can still be released, and a hold an owner has adopted can be released however often that failed |
| CustodyProgress.SuccessTakesAnAttempt | packages/server/src/generation-content-owner.ts:206-236 | No release of a hold succeeds that was not started |
| CustodyProgress.AdmittedIsAnsweredFor | packages/server/src/transition-payload-ledger.ts:123-250 | A transfer that a ledger has admitted is listed by it for ever; when the ledger has drained an owner has adopted it, and when the remainder was let go of it was adopted or its release has begun |
| CustodyPaths.FrameReachesOwner | packages/server/src/pi-payload-externalizer.ts:959-1019 | A finished frame can be handed on, as lease and transfer, until an active owner to whose content its holds are new and consistent has adopted all of them |
| CustodyPaths.FrameReachesLedger | packages/server/src/transition-payload-ledger.ts:123-187 | An open ledger with room for what a finished frame has collected can admit it |
| CustodyPaths.LedgerComesToItsEnd | packages/server/src/transition-payload-ledger.ts:189-250 | In every reachable state an open ledger can be brought to its end with any owner: drained, or, if the drain fails on the way, its remainder let go of and released |
| EndToEnd.OwnedContentIsReadable | packages/server/src/generation-content-owner.ts:88-236 | In the combined system, every reference an owner exposes before its release begins is registered, undeleted, published and complete on disk |
| EndToEnd.LeasedContentIsReadable | packages/server/src/pi-payload-externalizer.ts:712-775 | The same for the references of a pending lease or transfer, from the end of externalization on |
| EndToEnd.AttemptIsCalled | packages/server/src/epoch-content-store.ts:569-578 | No attempt of the chain goes astray: after the step that starts it the handle is not active in the store |
| EndToEnd.ClosedOwnerHoldsNothing | packages/server/src/generation-content-owner.ts:125-214 | When an owner is closed, the store has released every hold the owner ever adopted |
| EndToEnd.ChainIsNeverRefused | packages/server/src/epoch-content-store.ts:569-578 | In every reachable state of the combined system a step of the chain can be taken if and only if the chain by itself can take it, a frame that ends has its content published, and what counts as a success was released by the store: the releases it starts can always be called |
| EndToEnd.EveryHoldFindsAFrame | packages/server/src/pi-payload-externalizer.ts:712-775 | Every hold the store hands out can be recorded by a frame that is still collecting |
| CustodyObjects.PayloadTransfer.Release | packages/server/src/pi-payload-externalizer.ts:986-1019 | A release attempts each hold once if the transfer is pending, and nothing otherwise |
| CustodyObjects.GenerationContentOwner.AdoptTransfer | packages/server/src/generation-content-owner.ts:88-123 | Succeeds exactly for an active owner and a pending transfer whose pairs are exact, of the epoch, new and consistent; then the owner has one primary hold for each new key, the duplicates are sent to cleanup and all references are registered; otherwise both objects stay as they are |
| CustodyObjects.GenerationContentOwner.SealAdoption | packages/server/src/generation-content-owner.ts:79-86 | Answers true exactly for an active or sealed owner, which is then sealed; any other stays as it is, and nothing but the phase ever changes |
| CustodyObjects.GenerationContentOwner.CleanupSettled | packages/server/src/generation-content-owner.ts:216-244 | A duplicate that was released is owned no longer; one that was not stays, and poisons an active or sealed owner |
| CustodyObjects.GenerationContentOwner.Release | packages/server/src/generation-content-owner.ts:125-236 | Every hold still owned is attempted exactly once, the duplicates first and then the primary holds, last adopted first; exactly the failed ones stay owned, and the owner is closed if there are none, else ready for a retry |
| LedgerObject.TransitionPayloadLedger.AdmitOne | packages/server/src/transition-payload-ledger.ts:123-187 | Admission is all or nothing: it succeeds exactly for a new transfer of the epoch, consistent with the references known, whose new content fits every limit; its entry then waits at the end and the sums grow by exactly the new content |
| LedgerAdmission.AdmitIff | packages/server/src/transition-payload-ledger.ts:123-187 | The reference by reference preflight accepts a transfer if and only if it is new, its references are of the epoch and agree with those known, and every sum of the distinct new content stays within its limit and exact; the ledger is then determined |
| LedgerObject.TransitionPayloadLedger.AdmitLogical | packages/server/src/transition-payload-ledger.ts:123-187 | Admission without a transfer changes the logical sums only, within the limits, or nothing |
| LedgerObject.TransitionPayloadLedger.DrainTo | packages/server/src/transition-payload-ledger.ts:189-213 | Routes entries to the owner in order and stops at the first refusal, with the rest untouched |
| LedgerObject.TransitionPayloadLedger.ReleaseRemaining | packages/server/src/transition-payload-ledger.ts:215-250 | Attempts every hold of every waiting transfer exactly once and leaves routed entries alone |
| Utf8.DecodeEncode | packages/server/src/bounded-utf8-codec.ts:318-352 | Decoding the UTF-8 of a text gives the text with its unpaired surrogates replaced |
| BoundedUtf8Codec.PrepareText | packages/server/src/bounded-utf8-codec.ts:96-119 | The chunks of a text, joined, are the UTF-8 of the whole text, for exactly the texts within the limit |
| BoundedUtf8Codec.PrepareJson | packages/server/src/bounded-utf8-codec.ts:152-352 | The chunks of a JSON value, joined, are the UTF-8 of its canonical text, for exactly the values within the ceilings of depth, width, items, string bytes and bytes; no token splits a surrogate pair or exceeds a chunk, so that nothing is truncated |
| Json.ParseCanonical | packages/server/src/bounded-utf8-codec.ts:152-293 | An RFC 8259 parser reads the canonical text of any valid value back as the value itself, up to the sign of zero |
| JsonCounters.JsonBytesExact | packages/server/src/bounded-utf8-codec.ts:243-293 | The size computed by recursion is the length of the encoded canonical text |
| JsonCounters.LogicalByteCounter.CountRawUtf8 | packages/protocol/src/logical-bytes.ts:99-112 | Succeeds exactly when the UTF-8 length still fits the limit, and then adds it |
| JsonCounters.LogicalByteCounter.CountJsonString | packages/protocol/src/logical-bytes.ts:114-142 | Succeeds exactly when the length of the quoted and escaped string still fits, and then adds it |
| JsonCounters.IsUtf8BytesBelow | packages/protocol/src/pi-product-decoders.ts:125-157 | Decides with early exit whether the UTF-8 length is below a limit |
| JsonCounters.IsBoundedJson | packages/protocol/src/pi-product-decoders.ts:159-253 | Accepts exactly the values within the codec's ceilings whose encoded length is below the limit, although it stops early |
| JsonCounters.InlineAgrees | packages/protocol/src/pi-product-decoders.ts:211-253 | The product guard takes inline exactly the roots that the codec admits and measures below the threshold |
| CanonicalCounter.CountCanonical | packages/protocol/src/logical-bytes.ts:309-370 | The analyzer's traversal succeeds exactly on valid values whose logical size still fits the limit, whatever it has stopped at, and then adds that size |
| CanonicalCounter.Analyze | packages/protocol/src/logical-bytes.ts:372-387 | Gives the logical size exactly for valid frames whose size is positive and within a valid limit |
| CanonicalCounter.CountersAgree | packages/protocol/src/logical-bytes.ts:309-370 | On every admitted JSON root the codec's bytes, the guard's count and the analyzer's traversal are one number, so that all three draw the inline line at one place |
| Base64.CanonicalIff | packages/server/src/pi-payload-externalizer.ts:935-957 | The canonical base64 check accepts a text if and only if it is the encoding of some non-empty byte string |
| Base64.AcceptedIsCanonical | packages/server/src/pi-payload-externalizer.ts:935-957 | An accepted text encodes what it decodes to, and the length computed from the text is that of the decoded bytes |
| FrameTraversals.EventIsWalk | packages/server/src/pi-payload-externalizer.ts:453-652 | The externalizer's traversal of an event replaces exactly the roots at which the analyzer's schema walk finds them |
| FrameTraversals.ResponseIsWalk | packages/server/src/pi-payload-externalizer.ts:422-451 | The same for responses, trees included |
| DecoderShadows.EventAnswers | packages/protocol/src/product-decoders.ts:213-272 | The shadowing decoder of events visits the same roots: a frame it accepts passes the guard at every root, and the shadow is the frame with the shadows at those roots |
| DecoderShadows.ResponseAnswers | packages/protocol/src/product-decoders.ts:274-294 | The same for responses |
| DecoderShadows.ExtensionAnswers | packages/protocol/src/product-decoders.ts:51-80 | The same for extension requests |
| SessionWalk.WalkFixes | packages/protocol/src/logical-bytes.ts:205-307 | A traversal leaves a frame as it is exactly when it leaves every root as it is |
| ContentProducts.TextComesBack | packages/server/src/pi-payload-externalizer.ts:654-681 | A text root reads back as itself exactly when it stayed inline or has no unpaired surrogate |
| ContentProducts.JsonComesBack | packages/server/src/pi-payload-externalizer.ts:683-705 | A JSON root reads back up to the sign of zero, also when it imitates a product wrapper |
| ContentProducts.ImageComesBack | packages/server/src/pi-payload-externalizer.ts:818-872 | An image block reads back with the same data and type, its fields in the rebuilt order |
| ContentProducts.OrderedIsSameRecord | packages/server/src/pi-payload-externalizer.ts:818-872 | That block has the very fields of the raw one |
| ExternalizedFrames.FrameRoundTrip | packages/server/src/pi-payload-externalizer.ts:386-652 | With its content stored, an externalized event, request or response reads back as the same frame if and only if no large text has an unpaired surrogate, no large JSON root a negative zero, and image fields are in order; otherwise exactly those roots differ |
| ExternalizedFrames.FrameSizeIgnoresThreshold | packages/protocol/src/logical-bytes.ts:144-370 | The logical size of an externalized frame is the same for every inline threshold |
| ExternalizedFrames.FramePasses | packages/protocol/src/pi-product-decoders.ts:315-366 | Every root of an externalized frame passes its product guard |
| ExternalizedFrames.InlineIsBelow | packages/protocol/src/pi-product-decoders.ts:345-366 | The guard accepts inline only what the codec would have left inline |
| ProductCeilings.ProductGuardIff | packages/protocol/src/pi-product-decoders.ts:366-573 | The product guard accepts the shadow of a frame whose roots are admissible if and only if no content list has more images than the budget allows, no image is over the hard attachment limit, and the shadow of a response is within 64 MiB |
| ProductCeilings.OneMediaType | packages/server/src/raster-admission.ts:46-108 | The same bytes are a raster file of one media type only |
| ProductCeilings.NegativeZerosAreLost | packages/server/src/pi-payload-externalizer.ts:522-525 | For every threshold and content limit within the ceilings, a `tool_execution_end` that meets every condition for being externalized and does not come back |
| FrameExternalizer.FrameState.ExternalizeText | packages/server/src/pi-payload-externalizer.ts:654-681 | From the memo or afresh the same product, within the limit, with its content stored and held |
| FrameExternalizer.FrameState.AcquireUtf8 | packages/server/src/pi-payload-externalizer.ts:712-775 | One hold per digest and frame; a second use takes none |
| FrameExternalizer.FrameState.AcquireImage | packages/server/src/pi-payload-externalizer.ts:826-870 | Succeeds exactly for images within the limits that are raster files of their media type, unless the run is interrupted; content whose digest is known gives the reference in the memo and takes no hold, and that reference always is the computed one |
| FrameExternalizer.ExternalizeFrame | packages/server/src/pi-payload-externalizer.ts:161-219 | The run over a frame that passed the raw guards: it succeeds if and only if every root is admissible, the frame is within the ceilings of the product guard, the caller's own guard accepts the product, and nothing interrupted the run; the product is then the externalized frame, each of its roots passes its guard, it reads back as the frame up to the exceptions above, and the lease has exactly one hold for each content it refers to |
| LiveProjection.EstimateIsExact | packages/server/src/session-live-projection.ts:738-776 | The arithmetic size estimate is the length of the serialized snapshot |
| LiveProjection.CoalescingKeepsMeaning | packages/server/src/session-product-schema.ts:166-187 | For any consumer of events, replaying the coalesced suffix gives the same accumulated texts, usage and state as the events as they came |
| LiveProjection.JoinShrinks | packages/server/src/session-live-projection.ts:832-861 | Merging two deltas never takes more bytes than both, and eight less where a surrogate pair comes together |
| LiveProjection.ReservedTurnsFit | packages/server/src/session-live-projection.ts:392-412 | With capacity for the reserved turns, inputs charged within those budgets never hit the suffix limits |
| LiveProjection.GrantedTurnFits | packages/server/src/session-live-projection.ts:392-412 | A turn granted on an idle projection stays within the suffix limits |
| LiveProjection.AheadChargedTurnsFit | packages/server/src/session-runtime.ts:3216-3245 | Charged ahead, inputs fit as long as the digits left out do, too |
| LiveProjection.AheadChargeCanFallShort | packages/server/src/session-runtime.ts:3229-3232 | The second event after sequence number 8 is charged too little |
| LiveProjection.AheadChargeExactIff | packages/server/src/session-runtime.ts:3216-3245 | Charging an event ahead is exact if and only if its own sequence number has as many digits as the first |
| LiveProjection.AheadChargedOverflowIff | packages/server/src/session-runtime.ts:3216-3245 | After inputs that were accepted, the next event, charged ahead like them, is turned away for lack of room if and only if there are too many frames without those that merged, or the charge together with the digits left out and less what merging saved exceeds what the suffix has |
| LiveProjectionObject.SessionLiveProjection.PrepareBatch | packages/server/src/session-live-projection.ts:510-546 | A token exactly when every input, one after the other, is allowed and has its effect: the event appended or joined, the queue replaced by that of the last queue update, a closed request gone with all others in their order, a new blocking request last and the only one of its id, the phase as asked; otherwise no trace |
| LiveProjectionObject.SessionLiveProjection.CommitPreparedBatch | packages/server/src/session-live-projection.ts:644-690 | Succeeds exactly when nothing was committed since the token was prepared, so at most one token of a revision; the state is then the one to which the effects of the inputs lead |
| LiveProjectionEffects.AllAcceptedIff | packages/server/src/session-live-projection.ts:510-646 | The reduction accepts inputs and gives a state if and only if each has its effect on events, queue, pending requests and phase, is allowed, and the last of these states is that one |
| LiveProjectionEffects.PendingIffOpen | packages/server/src/session-live-projection.ts:601-623 | After accepted inputs the pending requests are exactly those asked and since then neither closed nor asked again, and those pending before that no input touched; no two have one id |
| LiveProjectionObject.SessionLiveProjection.CommitPreparedIdleBaseCompaction | packages/server/src/session-live-projection.ts:464-477 | Replaces the base and empties the suffix exactly when nothing was committed since it was prepared, and changes nothing otherwise |
| LiveProjectionObject.SessionLiveProjection.BeginIdleBaseCompaction | packages/server/src/session-live-projection.ts:341-350 | A token of the present revision exactly when idle |
| LiveProjectionObject.SessionLiveProjection.PrepareIdleBaseCompaction | packages/server/src/session-live-projection.ts:427-462 | The first token is used up whatever happens; the second is given exactly when nothing was committed, the projection is idle and the new base fits |
| LiveProjectionObject.SessionLiveProjection.SetRuntimePhase | packages/server/src/session-live-projection.ts:314-320 | A phase change is a new revision, and is refused for another identity or when the snapshot would not fit |
| LiveProjectionObject.SessionLiveProjection.Snapshot | packages/server/src/session-live-projection.ts:326-339 | Every snapshot fits the wire limit and its sequence numbers strictly increase within the range the decoder demands |
| SessionLeaseTokens.TokenFencesOneLease | packages/server/src/session-supervisor.ts:408-447 | In every reachable state a fencing token lives in at most one lease |
| SessionLeaseTokens.SupersededTokenIsNeverAdmitted | packages/server/src/session-supervisor.ts:1426-1435 | After a takeover, a release by its connection, or the end of its connection, a token is never admitted again, to no runtime and from no connection |
| SessionLeaseTokens.PreviousGenerationTokenIsNeverAdmitted | packages/server/src/session-supervisor.ts:1420-1435 | Once a runtime has moved on, a token of a former generation is never admitted to it |
| SessionLeaseTokens.TakeoverIff | packages/server/src/session-supervisor.ts:516-557 | A takeover goes through exactly for the tracked runtime of that generation whose lease another connection holds at the revision named; it is then held by the new one, one revision on, and announced, and nothing else changes |
| SessionLeaseTokens.PoolCanBeFreed | packages/server/src/session-supervisor.ts:404-447 | In every reachable state, whoever is inside the pool lock can leave it in one step |
| SessionLeaseRevisions.RevisionsStrictlyIncrease | packages/server/src/session-supervisor.ts:1308-1360 | While generations are not given out twice and only tracked runtimes reconcile, revisions strictly increase per handle and generation |
| SessionLeaseRevisions.OneTakeoverPerRevision | packages/server/src/session-supervisor.ts:516-557 | Then of several takeovers that name one revision at most one succeeds |
| SessionLeaseRevisions.RekeyPreservesHolder | packages/server/src/session-supervisor.ts:1363-1402 | In the runs with that discipline, a rekey to another handle within a generation keeps connection and token, one revision on, whatever runs meanwhile short of the holder letting go; in a later generation the lease starts over and is free |
| SessionLeaseRevisions.ReopenedSessionRepeatsRevision | packages/server/src/session-supervisor.ts:884-930 | A forgotten session that is opened again announces a revision a second time |
| SessionLeaseRevisions.LateReconcileRepeatsRevision | packages/server/src/session-supervisor.ts:1039-1065 | In the model, so does a call that starts and reconciles the runtime of a deleted session after it was reopened |
| SessionLeaseRevisions.ClaimedIsReachable | packages/server/src/session-supervisor.ts:404-447 | The state from which the first of these runs starts is reachable |
| SessionLeaseRevisions.ReopenedIsReachable | packages/server/src/session-supervisor.ts:884-1038 | So is, in the model, that of the second |
| SessionLeaseLoss.NextCommitClimbsIff | packages/server/src/session-supervisor.ts:1257-1270 | In any reachable state in which revisions climbed so far, the next commit, that of a rekey included, keeps them climbing if and only if nothing was announced for its handle and generation yet, or the entry it goes on from is still there, of that generation, and not behind the last announcement |
| SessionLeaseLoss.RevisionsClimbIff | packages/server/src/session-supervisor.ts:1257-1365 | Over any run, disciplined or not: revisions climb if and only if no commit was based on a lease that was behind |
| SessionLeaseLoss.OneTakeoverWhileClimbing | packages/server/src/session-supervisor.ts:516-557 | In a run of any kind, two takeovers that name the same revision of one handle and generation both succeed only if revisions have stopped climbing |
| SessionLeaseLoss.LostLeaseRepeats | packages/server/src/session-supervisor.ts:1257-1365 | From a lease that was lost, claims and releases alone lead to an announced revision being announced again |
| SessionLeaseLoss.EveryRevisionCanRepeat | packages/server/src/session-supervisor.ts:816-930 | From every reachable state of the model every announced revision can be announced again, by forgetting and reopening its session |
| WorkspaceReservations.OperationsExclude | packages/server/src/session-supervisor.ts:1193-1255 | In every reachable state two operations in flight in one workspace are two creations or two deletions of different sessions; a transition is alone |
| WorkspaceReservations.NothingLeaks | packages/server/src/session-supervisor.ts:837-937 | A workspace with nothing in flight accepts any operation again |
| RestartBudget.RememberedIsRecent | packages/server/src/session-supervisor.ts:1437-1469 | Discarding old crash times loses nothing: what is remembered is exactly the crashes in the window |
| RestartBudget.ScheduledIff | packages/server/src/session-supervisor.ts:1437-1469 | A crash schedules a restart if and only if at most `maxAutoRestarts` crashes lie in the window that ends with it |
| RestartBudget.RestartsPerWindow | packages/server/src/session-supervisor.ts:1437-1469 | Any span shorter than the window contains at most `maxAutoRestarts` scheduled restarts |
| SupervisorObject.SessionSupervisor.ResolveAlias | packages/server/src/session-supervisor.ts:1404-1418 | Ends at the handle to which live aliases lead, also on a cycle, and drops at most the expired alias that ends the walk |
| SupervisorObject.SessionSupervisor.TakeOverLease | packages/server/src/session-supervisor.ts:516-557 | A compare-and-swap on the revision: exactly a lease of that revision held by another connection passes on, one revision on |
| SupervisorObject.SessionSupervisor.ClaimLease | packages/server/src/session-supervisor.ts:408-447 | Takes a free lease, and reports a held one without changing it |
| SupervisorObject.SessionSupervisor.ReleaseLease | packages/server/src/session-supervisor.ts:449-495 | Vacates exactly the lease of that connection and, if asked, of that token, one revision on; any other token, connection or generation leaves it as it is |
| SupervisorObject.SessionSupervisor.ReleaseConnection | packages/server/src/session-supervisor.ts:497-514 | Releases every lease of the connection and no other, up to one whose revisions have run out |
| SupervisorObject.SessionSupervisor.RekeyLeases | packages/server/src/session-supervisor.ts:1363-1402 | Moves the lease to the new handle, one revision on if it is held and of that generation |
| SupervisorObject.SessionSupervisor.AssertLease | packages/server/src/session-supervisor.ts:1426-1435 | Admits exactly the holder's connection and token in the runtime's generation |
| SupervisorObject.SessionSupervisor.ReserveWorkspaceTransition | packages/server/src/session-supervisor.ts:1193-1222 | Reserves exactly when no deletion, transition or creation of the workspace is in flight and it is not being activated |
| SupervisorObject.SessionSupervisor.ReserveWorkspaceCreation | packages/server/src/session-supervisor.ts:1224-1245 | Counts a creation exactly when neither transition nor deletion stands against it |
| SupervisorObject.SessionSupervisor.HandleCrash | packages/server/src/session-supervisor.ts:1437-1469 | Remembers the crash and schedules a restart exactly as the restart budget says |
| LineSplit.SplitIsUnique | packages/server/src/session-history-reader.ts:386-426 | The split at line feeds is the one decomposition of the bytes into lines without line feeds |
| HistoryScan.ScanLines | packages/server/src/session-history-reader.ts:386-426 | Whatever the reads, the lines handed on are exactly those of the file with their offsets, up to the first one over the limit |
| HistoryScan.RecordedRangeIsLine | packages/server/src/session-history-reader.ts:386-426 | The recorded offset and length of a line read back the line |
| HistoryPaging.Window | packages/server/src/session-history-reader.ts:126-156 | The two loops find the one page of the declarative rule: back until full, then on to the nearest turn or forced boundary, never empty and within the byte budget |
| HistoryPaging.PageIsUnique | packages/server/src/session-history-reader.ts:126-156 | The declarative rule determines the page |
| HistoryPaging.PagingIsPartition | packages/server/src/session-history-reader.ts:126-156 | For any limits, the pages read so far concatenate to exactly the records between the place reached and the cursor |
| HistoryPaging.PagesAndInitialWindowAreEverything | packages/server/src/session-history-reader.ts:437-459 | Read to the end, the initial window and the pages together are the whole list of records |
| HistoryPaging.ReadAll | packages/server/src/session-history-reader.ts:208-232 | Paging never gets stuck and ends at the beginning within as many pages as there are records |
| HistoryPaging.ActivePath | packages/server/src/session-history-reader.ts:472-514 | Gives the ancestors of the last record, root first, each the parent of the next, and fails exactly when the parents run in a circle |
| HistoryPaging.ContextRecords | packages/server/src/session-history-reader.ts:472-514 | The context is the selection, in their order, of exactly the message-carrying records of the path, around its last compaction if there is one |
| SessionScan.ScanAttempt | packages/server/src/native-session-catalog.ts:788-898 | The reading loop computes the scan of the reads, and that describes the lines: how many messages, the name given last, the text of the first user message, and the latest activity |
| SessionScan.ScanDescribes | packages/server/src/native-session-catalog.ts:1052-1103 | A scan that succeeds describes the lines of the file, whatever the reads |
| SessionScan.ReadsDoNotMatterIff | packages/server/src/native-session-catalog.ts:815-850 | All ways of reading a file in reads of up to 64 KiB give one result if and only if it is not one whose lines are accepted although a complete one is 16 MiB and a carriage return long |
| SessionScan.ReadSizesMatterAtTheLimit | packages/server/src/native-session-catalog.ts:829-831 | Such a line, accepted when CR and LF arrive together and refused byte by byte |
| SessionScan.ResumedScanIsFullScan | packages/server/src/native-session-catalog.ts:788-898 | Resuming from an append-safe state equals scanning the new file, for all reads of all three, if and only if the new file has no such line |
| SessionScan.CheckpointAfterAppend | packages/server/src/native-session-catalog.ts:1015-1037 | Seeded and fed what was appended, in any pieces, the accumulator ends with the windows of the whole new file |
| SessionScan.AppendIsRecognised | packages/server/src/native-session-catalog.ts:900-921 | A file that begins with the scanned one is taken for an append if and only if the scan saw a header and ended with a line feed, something was appended, and the first line is within the limit |
| SessionScan.MiddleEditIsUnseen | packages/server/src/native-session-catalog.ts:900-921 | A file that is taken for an append and then rewritten in any way is still taken for one if and only if its scanned part differs nowhere but between the two windows |
| SessionScan.ResumedScanMissesEdit | packages/server/src/native-session-catalog.ts:788-921 | Files for which the resumed scan counts one message more than a scan of the file: a message between the windows was overwritten |
| SessionScan.AnEditIsMissed | packages/server/src/native-session-catalog.ts:788-921 | One such file, for which resuming and scanning give different results |
| RiffGrammar.CheckIsGrammar | packages/server/src/raster-admission.ts:186-236 | The per-byte container check accepts exactly the byte streams that are WebP files of the declared length by the recursive grammar |
| RasterAdmission.TailValidator.Push | packages/server/src/raster-admission.ts:250-264 | The window array holds the last bytes of everything pushed, for chunks of any size |
| RasterAdmission.RasterAdmissionValidator.Finish | packages/server/src/raster-admission.ts:118-180 | For any chunks, the verdict is that on the whole file: prefix, and container grammar or tail |
| PiDelivery.RaceLosesNothing | packages/server/src/pi-process.ts:686-781 | Deadline, abort and completion in any order: one answer, and every lease decoded is that answer's or was given back |
| PiDelivery.FirstEventDecides | packages/server/src/pi-process.ts:686-781 | The first event decides: a completion is the answer and anything else a rejection, and every later completion gives its lease back |
| PiDelivery.ConsumeDecodedOutcome | packages/server/src/pi-process.ts:783-827 | Accepts if and only if the consumer returned exactly the delivery it prepared, both looks at the host found it current, and the commit answered literal true; any other plan commits nothing. All holds of an outcome that was not accepted are given back once, unless its transfer had already found another owner |
| PiDelivery.HandleDecodedPendingResponse | packages/server/src/pi-process.ts:829-888 | A request is resolved if and only if it awaits a decoded response, its consumer returned exactly the delivery, every look at the host found it current, and the commit answered literal true; so a response becomes visible only after its holds found an owner |
| PiDelivery.DeliverUnsolicited | packages/server/src/pi-process.ts:890-927 | A frame is delivered if and only if it has a consumer, which returned exactly the delivery, the spawn was owned at every look, and the commit answered literal true; one that nobody wants gives its holds back |
| PendingRequests.PendingIdsAreOneToOne | packages/server/src/pi-process.ts:425-508 | In every reachable state pending requests differ in both ids |
| PendingRequests.WireIdIsNeverReused | packages/server/src/pi-process.ts:1159-1163 | A wire id means one request for ever |
| PendingRequests.LateDeletionSparesOthers | packages/server/src/pi-process.ts:503-508 | A late deletion for a settled request leaves every other one as it is |
| PendingRequests.SettledStaysSettled | packages/server/src/pi-process.ts:503-508 | From the deletion of a pending request on, its wire id is pending in no later state of the run |
| PendingRequests.SendableIff | packages/server/src/pi-process.ts:425-501 | In every reachable state a public id can be sent if and only if no pending request has it |
| PendingRequests.SettledIdIsFree | packages/server/src/pi-process.ts:425-508 | Right after the deletion of a pending request its public id can be sent again |
| PendingRequests.PendingMap.SendRaw | packages/server/src/pi-process.ts:425-501 | Sends exactly a public id no other pending request has, under a fresh wire id, and then has it in both maps; otherwise nothing changes |
| PendingRequests.PendingMap.DeleteRequest | packages/server/src/pi-process.ts:503-508 | Removes the wire id if it still has that request, and then its public id unless that names another wire id; all other keys stay |
| PendingRequests.PendingMap.RejectAll | packages/server/src/pi-process.ts:1133-1141 | Nothing is pending any more, every public id is free, and wire ids still are never used again |
| PendingRequests.PendingMap.NextPublicId | packages/server/src/pi-process.ts:1150-1157 | The loop ends with an id that is not in use |

## Left out

- `ContentStoreObject` has the code between two awaits as methods, each one step of `ContentStore`; how such pieces interleave is a matter of runs, and so is in the transition system only.
- ContentStoreProgress.EveryCallCanFinish: says that calls can finish, not that they will; fairness of the event loop and of the file system is not modelled.
- EndToEnd.ClosedOwnerHoldsNothing: that the promise of a release resolves only when the store has released the handle is the guard of the combined step that counts a success.
- Queues of the digest and tombstone locks are first in, first out by definition; that the chained promises give that order is not modelled.
- Renames, removals, verification and manifest writes are single steps that succeed or fail; `lstat` before `mkdir` is one step with it, and minting a hold is one step with storing it.
- Shutdown, startup scanning, stale epochs, permissions, symlinks and fsync of the store.
- Concurrent background releases of duplicates are attempts one at a time in any order.
- ExternalizedFrames.FrameRoundTrip: the guard's refusal of a JSON object that occurs twice in one root is not modelled, since values here have no identity.
- DecoderShadows.EventAnswers: says what it means that a decoder accepts a frame; that it accepts every externalized frame that has the required fields and is within the ceilings on items and on the depth of a tree is not stated.
- ProductCeilings.ProductGuardIff: the conditions of the product guard that the raw guards have as well are not repeated, and the ceilings on inline JSON are those of the guard of its root; the shadow is taken in a second walk.
- FrameExternalizer.ExternalizeFrame: the traversal takes the fields of a record in their own order, the source in a fixed one; products, content and holds are the same, but the order of the holds may differ.
- Numbers are numerals: that JavaScript prints the shortest decimal that reads back is taken for granted, and so is that it is at most 32 characters.
- CanonicalCounter.CountCanonical: objects that contain themselves are outside the data type, so that the refusal of cycles is not modelled.
- The logical-byte side of a turn budget, and ordering of settled messages by their consumers.
- EndToEnd: a frame becomes a lease under the guard that all its content is published; that guard is not linked to what `FrameExternalizer` proves about holds, where the holds of one frame are references without a state.
- SessionLeaseLoss.EveryRevisionCanRepeat: the model forgets and reopens any handle at any time, while the source forgets only a session that is inactive or that the caller controls, and opens it again only if its file is there.
- SessionLeaseRevisions.RevisionsStrictlyIncrease: needs the discipline named in its row, which the code does not enforce; the exact conditions are those of `SessionLeaseLoss`.
- Of the supervisor, capacity, idle eviction, inventory, stopping everything, and starting runtimes; `session-runtime.ts` is an abstract runtime with a generation.
- SessionScan.ReadsDoNotMatterIff: bytes are not decoded to text, so that lengths differ from the source's where bytes are not UTF-8; file identity and cancellation are left out.
- HistoryScan.ScanLines: checks of the header, the fingerprint and the total size are left out.
- The limit on concurrent reads of the catalog, and which refresh a caller shares.
- Of the child process, spawning, signals, protocol framing and timers.

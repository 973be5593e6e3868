# Verification of the canvas platform's protocols

A Dafny 4.11 model of the parts of the repository whose correctness spans several calls, several objects or a whole run,
and proofs about it. `dafny verify dfyconfig.toml` checks all of it. One module per file:

- `StateVectorSync`, `SyncRoom`, `SyncLedger`, `SyncProtocol`: a room's log of per-client counters, its class, the SQLite
  log it is persisted in, and delivery of the log to a client over sockets that drop at any moment.
- `WebSocketFrames`: printing and incremental parsing of text frames (sections 5.2 and 5.3 of RFC 6455).
- `CanvasCore`, `CanvasHistory`, `CanvasSerialization`: draft-then-commit transactions, the object index and the canvas
  tree, runs of transactions and restores, and the serialized form.
- `SyncRegistry`, `MultimodalLab`: whole-state replacement through every room, frame leases, undo and redo.
- `Governor`, `GovernorRegions`, `PassiveTimeline`, `PassiveBoundaries`, `PolicyRanking`: thresholds, keyframes and
  smallest regions, coalescing of samples into events and where each event begins and ends, and Pareto ranking of
  observation policies.
- `Coordinates`: picked points carried from a cropped image to the canvas, viewport gestures, hit testing.
- `LivePortal`, `PortalCalls`, `RuntimeManager`, `NvclRuntime`: three lifecycles whose hosts, providers and agents may
  fail.
- `Basics`, `Arithmetic`, `Ordering`: shared names, facts about quotients, and sorting of ids.

Each stateful class of the program is a class here, whose methods are proved against functions of its abstract state;
the properties are lemmas about those functions over all runs. Awaits are points where other steps may run: the room's
apply, the lab's freshness check, and every await of the runtime manager are split there.

## How the program differs from what it promises

Where the code falls short of its intent, the model follows the code, a lemma gives an input, and another says exactly
when the promise is met or, where the promise is a bound, what bound does hold on every run.

- Two overlapping `apply` calls with one counter are both remembered and a reconnecting client can miss one
  (`OverlappingCallsLoseAnUpdate`, `StrictIffNeverOvertaken`).
- An update id reused in another room is remembered but not persisted (`ReusedIdLosesARow`, `PersistedIffFresh`).
- A client whose connect is acted on beside a live socket can receive an update twice (`EarlyReconnectDeliversTwice`,
  `ConnectIsSafeIff`); one that waits for the close event of its earlier sockets cannot (`WaitingClientIsSafe`).
- The hub refuses the frame it prints for a payload of exactly 127 bytes (`PrintedButRefused`, `RoundTripIff`,
  `FramesSurviveAnyCutIff`).
- Bytes that arrive after a close frame are still handled as messages (`MessageAfterCloseIsHandled`, `CutAfterCloseIff`).
- `create_subcanvas` does not check the object's canvas or the child's object list (`MisplacedSubcanvasBreaksIndex`,
  `OperationKeepsIndexIff`), so a transaction on one canvas can add an object to another whose revision does not move
  (`PlacementMovesNoRevision`, `RevisionCountsCommits`).
- `observe` renders, awaits and then stamps revision and hash, so a frame can show an older canvas than its stamp, and
  an object placed on the canvas during the last await goes unseen (`StampedAfterRendering`,
  `CommitsOnWhatTheFrameShowed`).
- A failed observation or a refused reset leaves an undo history that no longer links (`UnobservedExecuteBreaks`,
  `UnobservedUndoBreaks`, `UnobservedRedoBreaks`, `RefusedResetBreaks`; `UnobservedExecuteIff`, `UnobservedUndoIff`,
  `UnobservedRedoIff`, `RefusedResetIff`).
- The governor records a frame before its crop is rasterized, so a failing crop loses the change, on a frame that stays
  as it is until the next keyframe (`FailedCropLosesTheChange`, `DriftIsBounded`, `MissedUntilKeyframeIff`).
- A failing flush loses the samples it took (`StaleQueueLosesCoverage`, `SampleLosesIff`, `SamplesAreConserved`).
- A keyframe lost before its flush leaves samples of an older frame size in the queue, whose regions the next event need
  not hold (`StaleQueueLosesCoverage`, `EventsCoverIff`).
- A rect that straddles a client area without width or height counts as visible (`EmptyAreaIsStraddled`, `VisibleIff`).
- A failing snapshot call updates `bestScore` but not the snapshot, so the loop may restore a worse canvas than it
  reports (`MissedSnapshotRestoresWorse`, `FallbackIsBestIff`).

## Model

| member | source | states |
|---|---|---|
| `StateVectorSync.VectorIsMaximum` | packages/state-vector-sync/src/index.ts:181-187 | the vector entry the room maintains for a client is the greatest counter remembered for it: every counter is below it and, when positive, one reaches it |
| `StateVectorSync.ReplayIsIndexed` | packages/state-vector-sync/src/index.ts:86-92 | a room built by replaying any persisted log has exactly that log, its vector and its id index |
| `StateVectorSync.IndexedIsReplay` | packages/state-vector-sync/src/index.ts:86-92 | conversely a room in memory is the one its own log rebuilds, so the log alone is enough to persist |
| `StateVectorSync.DiffIsExactIffStrict` | packages/state-vector-sync/src/index.ts:103-107 | the diff of the vector of every log prefix is exactly the remaining suffix if and only if each client's counters strictly increase along the log |
| `StateVectorSync.ReplicaConverges` | packages/state-vector-sync/src/index.ts:103-107 | a replica that folded a prefix with any deterministic step reaches the server's state by folding the diff it is sent |
| `StateVectorSync.ApplyAtomicKeeps` | packages/state-vector-sync/src/index.ts:117-135 | an apply whose transaction is one step keeps counters gap-free and strictly increasing and only extends the log; a failed transaction consumes no counter |
| `StateVectorSync.AppendStrictIff` | packages/state-vector-sync/src/index.ts:181-187 | remembering an update that passed the guard keeps counters strictly increasing exactly when its counter is still the next one |
| `StateVectorSync.EveryInterleavingIsGapFree` | packages/state-vector-sync/src/index.ts:117-164 | under every interleaving of apply and applyStateReplacement split at their await, every client's remembered counters are exactly 1..vector[client], and the log only grows |
| `StateVectorSync.StrictIffNeverOvertaken` | packages/state-vector-sync/src/index.ts:124-133 | over every such run counters stay unique and increasing if and only if no call settles after another call has taken its counter |
| `StateVectorSync.OverlappingCallsLoseAnUpdate` | packages/state-vector-sync/src/index.ts:124-133 | the failing family is inhabited: two overlapping calls with one counter are both remembered, and a client that holds the first is never sent the second |
| `StateVectorSync.MergeStateVectors` | packages/state-vector-sync/src/index.ts:192-196 | the nested loops compute the fold of pairwise merges, whatever order a vector's entries come in |
| `StateVectorSync.MergeAllIsLeastUpperBound` | packages/state-vector-sync/src/index.ts:192-196 | the merge is the pointwise least upper bound of all its arguments |
| `StateVectorSync.MergeWithPrefix` | packages/secure-canvas-client/src/index.ts:111-117 | merging the vector of a log prefix with the vector of the log gives the vector of the log |
| `StateVectorSync.GuardDecides` | packages/state-vector-sync/src/index.ts:117-164 | told over the log alone: a wrong room is refused; a known id is answered with the last remembered update of that id, or refused for another kind; a spent counter with the first remembered update of that client and counter if it is of the kind, or as out of order; then a gap and a missing replacement callback are refused, and anything else is admitted |
| `StateVectorSync.DecisionIsUnique` | packages/state-vector-sync/src/index.ts:117-164 | that relation leaves one decision, so one answer, for every log and update |
| `StateVectorSync.ResentIsAnsweredAgain` | packages/state-vector-sync/src/index.ts:119-123 | an update sent again after its answer was lost is answered with the result remembered for it, whatever was remembered since |
| `SyncRoom.StateVectorSyncRoom.constructor` | packages/state-vector-sync/src/index.ts:86-92 | the constructor's replay loop reaches the replayed room of the listed rows |
| `SyncRoom.StateVectorSyncRoom.RememberApplied` | packages/state-vector-sync/src/index.ts:181-187 | log, id index and vector move together; the row is persisted only when asked |
| `SyncRoom.StateVectorSyncRoom.Enter` | packages/state-vector-sync/src/index.ts:117-131 | the code before the await decides as the log relation says: a re-sent update is answered with the one remembered, another kind under its id or counter is refused, and so are another room, a gap and a missing replacement callback; nothing changes |
| `SyncRoom.StateVectorSyncRoom.NextUpdate` | packages/state-vector-sync/src/index.ts:109-115 | the update it makes is one the guard admits when its id is unknown |
| `SyncRoom.StateVectorSyncRoom.Apply` | packages/state-vector-sync/src/index.ts:117-164 | an undisturbed apply answers with the remembered update, the refusal or the new result that the log relation names, appends and persists the update only when it is admitted and its callback returns, and leaves room and rows as they were otherwise |
| `SyncLedger.SqliteSyncUpdateLog.Append` | packages/sync-ledger/src/index.ts:19-22 | insert-or-ignore on the two unique keys: the row is added at the end unless its id or its (room, client, counter) is taken |
| `SyncLedger.SqliteSyncUpdateLog.List` | packages/sync-ledger/src/index.ts:23-26 | lists exactly the rows of a room in insertion order |
| `SyncLedger.InsertKeepsKeysUnique` | packages/sync-ledger/src/index.ts:8-21 | no two rows ever share a unique key |
| `SyncLedger.AdmittedConflictsIff` | packages/sync-ledger/src/index.ts:10-16 | an update the room admits conflicts with a row exactly when a row of another room already carries its id |
| `SyncLedger.PersistedIffFresh` | packages/sync-ledger/src/index.ts:19-26 | after an admitted apply, table and memory agree exactly when the update id is fresh across rooms |
| `SyncLedger.RebuiltRoomIsTheRoom` | packages/state-vector-sync/src/index.ts:86-92 | over any run of loads, applies and restarts with fresh ids, a room rebuilt from the table is the room in memory |
| `SyncLedger.ReusedIdLosesARow` | packages/sync-ledger/src/index.ts:10-21 | the failing family is inhabited: one update id used in two rooms drops the second room's row |
| `SyncProtocol.SecureCanvasSyncClient.OnHelloAck` | packages/secure-canvas-client/src/index.ts:230-241 | the ack connects the client, merges the server vector and hands over the missing updates once |
| `SyncProtocol.SecureCanvasSyncClient.OnUpdate` | packages/secure-canvas-client/src/index.ts:336-348 | an update frame is delivered and merged by vector, or by its counter alone when no vector comes with it |
| `SyncProtocol.SecureCanvasSyncClient.Connect` | packages/secure-canvas-client/src/index.ts:221-225 | connect is refused while connected or connecting |
| `SyncProtocol.RunKeeps` | packages/websocket-sync/src/index.ts:125-129 | every run of commits, accepts, hellos, deliveries, drops and close events keeps the delivery invariant, given that no connect is acted on beside an open socket that could still hand something over; refused connects and reconnects beside closed sockets are covered |
| `SyncProtocol.ExactlyOnceInOrder` | packages/secure-canvas-client/src/index.ts:221-298 | over every such run what the client received is a prefix of the room log without repeats, its vector is the vector of that prefix, and on a settled open socket the prefix plus what is in flight is a prefix of the log, the whole of it while the hub counts the socket |
| `SyncProtocol.ConnectIsSafeIff` | packages/secure-canvas-client/src/index.ts:221-298 | in every world such runs reach, a connect that is acted on is safe, that is, no continuation that keeps to the rule from there on delivers an update twice, if and only if no open socket could still hand something over |
| `SyncProtocol.WaitingClientIsSafe` | packages/secure-canvas-client/src/index.ts:289-298 | a client that connects again only after it has handled the close event of every earlier socket receives each update once and in order, and its next connect is safe |
| `SyncProtocol.BesideLiveDeliversTwice` | packages/secure-canvas-client/src/index.ts:221-298 | from every such world with a live socket beside which a connect is acted on, some continuation delivers an update twice |
| `SyncProtocol.EarlyReconnectDeliversTwice` | packages/secure-canvas-client/src/index.ts:289-296 | the failing family is inhabited: a connect acted on beside a live socket delivers one update twice |
| `WebSocketFrames.XorBitsTwice` | packages/websocket-sync/src/index.ts:41-41 | masking a byte twice with the same key byte gives the byte back |
| `WebSocketFrames.XorBit` | packages/websocket-sync/src/index.ts:41-41 | bit k of the exclusive or is set exactly when bit k of the one and of the other differ |
| `WebSocketFrames.MaskUnmasks` | packages/websocket-sync/src/index.ts:41-41 | each bit of octet i of an unmasked payload is the received one flipped where the key octet i % 4 has it |
| `WebSocketFrames.FrameIsRead` | packages/websocket-sync/src/index.ts:33-46 | a frame laid out as the protocol says, header with a 7-bit or 16-bit length, key if masked, body, whatever follows it, is read as its opcode, its body with the mask off and its size; one of 127 octets is refused |
| `WebSocketFrames.ParsedIff` | packages/websocket-sync/src/index.ts:33-42 | conversely an input is refused exactly for a declared length of 127, and otherwise yields a frame exactly when it starts with a whole one |
| `WebSocketFrames.PrintedIsOnTheWire` | packages/websocket-sync/src/index.ts:26-31 | the hub prints an unmasked whole text frame with the shortest length that fits, up to 65535 octets |
| `WebSocketFrames.LiteralFrames` | packages/websocket-sync/src/index.ts:33-46 | a literal masked frame and a literal frame with a two-octet length decode to their messages |
| `WebSocketFrames.TakeFrame` | packages/websocket-sync/src/index.ts:35-42 | one turn of the loop takes the frame that starts at the offset, reports that it is not all there, or fails on a declared length of 127, be it the 64-bit marker or 127 bytes |
| `WebSocketFrames.UnmaskInPlace` | packages/websocket-sync/src/index.ts:41-41 | the in-place loop leaves the masked payload unmasked |
| `WebSocketFrames.DecodeFrames` | packages/websocket-sync/src/index.ts:33-46 | the loop terminates and yields the messages, rest and closed flag of the frame-by-frame definition, or its error: a 64-bit length or a payload of exactly 127 bytes |
| `WebSocketFrames.ParseStable` | packages/websocket-sync/src/index.ts:35-39 | more bytes never change a frame that is already complete |
| `WebSocketFrames.ChunkingIndependence` | packages/websocket-sync/src/index.ts:33-46 | for every cut of every stream before a close frame, decoding the first part and then the carried rest plus the second yields the same messages, rest and flag as decoding at once |
| `WebSocketFrames.FeedIsDecode` | packages/websocket-sync/src/index.ts:139-141 | however a stream is chunked, the hub has handled the messages that decoding it at once shows, in order, and carries the same rest |
| `WebSocketFrames.CutAfterCloseIff` | packages/websocket-sync/src/index.ts:43-45 | past a close frame the hub parses on: cutting there shows the same messages exactly when the bytes after it hold no complete text frame before the next close frame, unfinished frame or refused length, or run into a refused length, which loses the messages taken with it |
| `WebSocketFrames.MessageAfterCloseIsHandled` | packages/websocket-sync/src/index.ts:139-141 | the failing family is inhabited: a message that arrives after a close frame is handled |
| `WebSocketFrames.RoundTripIff` | packages/websocket-sync/src/index.ts:26-31 | any list of printed or masked text frames under 65536 payload bytes decodes to its payloads with an empty rest if and only if no payload has exactly 127 bytes, and fails otherwise |
| `WebSocketFrames.PrintedButRefused` | packages/websocket-sync/src/index.ts:26-38 | the failing family is inhabited: the program refuses the frame it prints for 127 bytes |
| `WebSocketFrames.FramesSurviveAnyCutIff` | packages/websocket-sync/src/index.ts:26-46 | such a list, cut anywhere, reaches the hub whole and in order exactly when no payload has 127 bytes |
| `CanvasCore.CanvasStore.ApplyTransaction` | packages/canvas-core/src/index.ts:165-228 | a transaction commits exactly its draft and appends exactly its event, or leaves state and events untouched and returns the error of its first failing check: invalid, missing canvas, failed precondition, failing operation, missing canvas after them, failing sink; a replayed key changes nothing and succeeds |
| `CanvasCore.CanvasStore.CheckPreconditions` | packages/canvas-core/src/index.ts:230-249 | the loop accepts exactly when every precondition holds of the state |
| `CanvasCore.CanvasStore.Restore` | packages/canvas-core/src/index.ts:155-163 | restoring replaces the whole state, or is refused for another root or a missing root canvas and changes nothing |
| `CanvasCore.FirstErrorWins` | packages/canvas-core/src/index.ts:187-187 | the error of a transaction is that of its first failing operation, on the draft the earlier ones left |
| `CanvasCore.TransactionChecks` | packages/canvas-core/src/index.ts:165-194 | a transaction is refused, in this order, for no operations or an incomplete object, an unknown canvas, a failing precondition or a failing operation, and for nothing else, since no operation can remove its canvas |
| `CanvasCore.OperationDoes` | packages/canvas-core/src/index.ts:251-319 | field by field: a patched object has the patch's value under every key it sets and its old one under every other, in all four parts, and one more revision; a reorder sets only zIndex and moves the revision; a creation stores the object given and lists it; a deletion removes its target and unlists it; every other object and canvas is as it was; and a changed object had the revision the operation expected |
| `CanvasCore.CreationAcceptedIff` | packages/canvas-core/src/index.ts:251-284 | creations are accepted exactly for a complete transform, a fresh id, a known canvas, the right canvas of the object and, for a subcanvas, a fresh child linked to canvas and object |
| `CanvasCore.ChangeRefusedIff` | packages/canvas-core/src/index.ts:286-319 | a patch, reorder or delete is refused for a missing target, another canvas, another revision (RevisionConflict) or a negative size, in this order and for nothing else |
| `CanvasCore.UnnamedStays` | packages/canvas-core/src/index.ts:187-187 | an object that no operation of a transaction names is the same afterwards |
| `CanvasCore.PreconditionsHoldIff` | packages/canvas-core/src/index.ts:230-249 | preconditions hold exactly when every named canvas revision and object revision is the current one and every named object exists or not as stated |
| `CanvasCore.OperationKeepsIndexIff` | packages/canvas-core/src/index.ts:251-319 | an operation that applies keeps every objectIds list duplicate-free and equal to a scan of the object map if and only if it is built as its callers build it |
| `CanvasCore.MisplacedSubcanvasBreaksIndex` | packages/canvas-core/src/index.ts:267-284 | the failing family is inhabited: a subcanvas object naming another canvas is accepted and leaves the index wrong |
| `CanvasCore.OperationKeepsTree` | packages/canvas-core/src/index.ts:267-284 | every operation keeps each canvas below the parentless root |
| `CanvasCore.PathIsUnique` | packages/mcp-reference-server/src/index.ts:1092-1107 | two parent paths from parentless canvases to one canvas are the same path |
| `CanvasCore.PathHasNoRepeats` | packages/mcp-reference-server/src/index.ts:1092-1107 | a parent path visits no canvas twice |
| `CanvasCore.GetLineage` | packages/mcp-reference-server/src/index.ts:1092-1107 | the loop terminates; on a tree neither the cycle branch nor the missing-parent failure can happen and it returns the root-to-target path with its portal objects |
| `CanvasHistory.LineageStaysATree` | packages/canvas-core/src/index.ts:155-228 | in every store reached from a parentless root by any transactions, snapshots and restores, every canvas has a unique root path |
| `CanvasHistory.IndexStaysExact` | packages/canvas-core/src/index.ts:251-319 | over the same runs, with subcanvases built as callers build them, every objectIds list is duplicate-free and is what a scan finds |
| `CanvasHistory.EventsChain` | packages/canvas-core/src/index.ts:196-217 | between restores the events chain hash to hash from the first state to the last, so no change goes unlogged |
| `CanvasHistory.KeysCommitOnce` | packages/canvas-core/src/index.ts:170-194 | between restores each idempotency key commits at most once, and never when it was known before |
| `CanvasHistory.CommitMovesOneRevision` | packages/canvas-core/src/index.ts:187-194 | an accepted transaction moves the revision of its canvas by one and of no other, and changes what a canvas shows if and only if it commits on that canvas or places a subcanvas object there |
| `CanvasHistory.RevisionCountsCommits` | packages/canvas-core/src/index.ts:187-194 | over any transactions a canvas's revision counts the commits on it, and it shows what it showed if and only if none committed on it or placed a subcanvas object on it |
| `CanvasHistory.PlacementMovesNoRevision` | packages/canvas-core/src/index.ts:267-284 | the failing family is inhabited: a transaction on another canvas adds an object here and leaves the revision |
| `CanvasSerialization.RoundTripIff` | packages/canvas-core/src/index.ts:43-62 | serializing and reading back gives the state itself if and only if its maps are keyed by id, its root exists and its objects are valid |
| `CanvasSerialization.SerializedCanvases` | packages/canvas-core/src/index.ts:43-50 | the serialized canvases are the state's canvases, each exactly once, no id listed twice |
| `CanvasSerialization.SerializedIsCanonical` | packages/canvas-core/src/index.ts:43-50 | canvases, objects and keys are listed in strictly rising id order, each list holding what the state holds and nothing else |
| `CanvasSerialization.SameSerializedIff` | packages/canvas-core/src/index.ts:43-62 | two keyed states share a serialized form exactly when they are the same state |
| `CanvasSerialization.EveryStateReadsBack` | packages/canvas-core/src/index.ts:43-62 | whatever transactions, snapshots and restores a store has been through, its objects are valid and its state comes back from its serialized form as it was |
| `SyncRegistry.CanvasSyncRegistry.RoomFor` | packages/sync-registry/src/index.ts:34-46 | a room is loaded from the persisted rows once, exactly when its canvas is known; the other rooms and the rows stay |
| `SyncRegistry.CanvasSyncRegistry.LoadRooms` | packages/sync-registry/src/index.ts:69-70 | every canvas of the input gets a room, those without one the room their rows rebuild, or the first unknown one fails before anything is replaced |
| `SyncRegistry.CanvasSyncRegistry.ReplaceInAllRooms` | packages/sync-registry/src/index.ts:72-75 | the loop over the rooms, in any order, leaves the store at the input and every room with exactly one replacement of this client, and is refused, changing no store, exactly when the input is unreadable or belongs to another workspace |
| `SyncRegistry.CanvasSyncRegistry.ReplaceAll` | packages/sync-registry/src/index.ts:68-96 | for any number of rooms a replacement succeeds exactly when every canvas of the input is known and the input is readable, and then leaves the store equal to its input and every room, also those loaded by the call, with exactly one new entry; a refused one changes neither store nor rows nor rooms but for rooms loaded |
| `SyncRegistry.ReplacementIsAdmitted` | packages/state-vector-sync/src/index.ts:137-164 | a replacement with the client's next counter and a fresh id is admitted, remembered and persisted |
| `SyncRegistry.ReplacedIff` | packages/sync-registry/src/index.ts:68-96 | a keyed state replaces the store's exactly when each of its canvases has a room or is in the store, its objects are valid and it has the store's root, and the store then is that state; an unknown canvas is found out first |
| `MultimodalLab.CommitsOnWhatTheFrameShowed` | packages/multimodal-lab/src/index.ts:562-660 | when an action commits, no other transaction has committed on its canvas since its frame was stamped, whatever ran at the awaits; it commits on what was stamped if and only if no subcanvas object was placed there during the last await, and on what the image showed if and only if moreover nothing altered the canvas between rendering and stamping |
| `MultimodalLab.StampedAfterRendering` | packages/multimodal-lab/src/index.ts:562-660 | the failing family is inhabited: an action commits on a canvas that holds a shape its frame did not show |
| `MultimodalLab.ReplacementIsTarget` | packages/multimodal-lab/src/index.ts:713-730 | going back to a recorded state leaves the store equal to it, for any set of rooms |
| `MultimodalLab.HistoryIsLinear` | packages/multimodal-lab/src/index.ts:409-527 | over every run of completed actions, undos, redos and resets, adjacent entries link after-to-before and the store is the top undo entry's after and the top redo entry's before |
| `MultimodalLab.UndosThenRedosRestore` | packages/multimodal-lab/src/index.ts:452-494 | k undos reach the state before the k-th last action, and k redos then restore store, revisions, idempotency keys and both stacks exactly |
| `MultimodalLab.StepKeepsLinked` | packages/multimodal-lab/src/index.ts:438-449 | each completed action keeps the history linked, and one that changes the canvas clears redo |
| `MultimodalLab.UnobservedExecuteIff` | packages/multimodal-lab/src/index.ts:425-446 | an accepted action whose observation throws keeps the history linked exactly when it changed nothing or there was no history |
| `MultimodalLab.UnobservedUndoIff` | packages/multimodal-lab/src/index.ts:462-471 | an undo whose observation throws keeps the history linked exactly when the entry changed nothing |
| `MultimodalLab.UnobservedRedoIff` | packages/multimodal-lab/src/index.ts:484-493 | the same for redo |
| `MultimodalLab.RefusedResetIff` | packages/multimodal-lab/src/index.ts:505-522 | a reset refused after the base state was put in keeps the history linked exactly when the store was at the base or there was no history |
| `MultimodalLab.UnobservedExecuteBreaks` | packages/multimodal-lab/src/index.ts:425-446 | the failing family is inhabited: two drawings, the second unobserved, leave a history that does not end at the store |
| `MultimodalLab.UnobservedUndoBreaks` | packages/multimodal-lab/src/index.ts:462-471 | the same: a drawing and its unobserved undo |
| `MultimodalLab.UnobservedRedoBreaks` | packages/multimodal-lab/src/index.ts:484-493 | the same: a drawing, its undo and an unobserved redo |
| `MultimodalLab.RefusedResetBreaks` | packages/multimodal-lab/src/index.ts:505-522 | the same: a drawing and a reset that the event sink refuses |
| `MultimodalLab.ResetAcceptedIff` | packages/multimodal-lab/src/index.ts:662-706 | a reset is accepted exactly when its key is spent, or its objects are new to the lab's initial state and the sink takes the event |
| `MultimodalLab.EachActionOnce` | packages/multimodal-lab/src/index.ts:409-527 | over every run the recorded ids are exactly those of the actions that got through, and sent again such an action changes nothing, while one that failed may be tried again under its id |
| `MultimodalLab.MultimodalCanvasLab.ExecuteAction` | packages/multimodal-lab/src/index.ts:409-450 | the method moves store, stacks and recorded ids as the history step does |
| `MultimodalLab.MultimodalCanvasLab.UndoAction` | packages/multimodal-lab/src/index.ts:452-472 | undo through the registry moves the lab as the history step does, the catch branch included |
| `MultimodalLab.MultimodalCanvasLab.RedoAction` | packages/multimodal-lab/src/index.ts:474-494 | redo through the registry, likewise |
| `MultimodalLab.MultimodalCanvasLab.ResetToBenchmark` | packages/multimodal-lab/src/index.ts:496-527 | reset through the registry, likewise |
| `Governor.PerceptualSignature` | packages/multimodal-lab/src/index.ts:1115-1132 | the nested loops sample, for every cell of a grid of at most 32 by 32, the three channels of the pixel at the cell's centre |
| `Governor.ComputeDifference` | packages/multimodal-agent-runtime/src/governor.ts:164-200 | the loop computes the total, the changed-block count and the bounding box of the block-by-block definition |
| `Governor.ScanBoxes` | packages/multimodal-agent-runtime/src/governor.ts:178-193 | the box holds every changed block and stays inside the grid |
| `Governor.UnchangedMean` | packages/multimodal-agent-runtime/src/governor.ts:178-199 | with no changed block the mean difference is at most the block threshold |
| `Governor.MeanTriangle` | packages/multimodal-agent-runtime/src/governor.ts:164-199 | mean signature distance obeys the triangle inequality |
| `Governor.ObservationGovernor.ComputeAxis` | packages/multimodal-agent-runtime/src/governor.ts:202-229 | the step-by-step edges are the padded, clamped and widened span |
| `Governor.ObservationGovernor.Observe` | packages/multimodal-agent-runtime/src/governor.ts:84-162 | observe moves sequence, keyframe, previous frame and forced reason as the specification does, branch by branch, including a crop that fails to rasterize after the frame was recorded |
| `Governor.SkipIff` | packages/multimodal-agent-runtime/src/governor.ts:109-119 | of the other frames exactly those are skipped whose mean difference is below the threshold or none of whose blocks changed |
| `Governor.RegionShowsEveryChange` | packages/multimodal-agent-runtime/src/governor.ts:202-230 | every region asked for is accepted by the lab, at least min(minimumRoiSize, frame) per side, and contains the sampled pixel and the centre of every changed block |
| `Governor.AxisCovers` | packages/multimodal-agent-runtime/src/governor.ts:202-229 | along one axis the span stays inside the frame, is wide enough and keeps every changed cell's sampled pixel and centre |
| `Governor.DriftIsBounded` | packages/multimodal-agent-runtime/src/governor.ts:84-147 | after every run, whatever crops failed, sequence minus last keyframe is below keyframeInterval, and the current frame is within (keyframeInterval - 1) x max(differenceThreshold, blockDifferenceThreshold) of the last delivered one plus the distances of the frames whose crops failed since; without failed crops nothing is added |
| `Governor.MissedUntilKeyframeIff` | packages/multimodal-agent-runtime/src/governor.ts:84-147 | after a failed crop, in any run, observing the same frame n more times leaves the last delivered one in place if and only if no keyframe falls due among them and a threshold is positive |
| `Governor.FailedCropLosesTheChange` | packages/multimodal-agent-runtime/src/governor.ts:135-146 | the failing family is inhabited: after a crop fails to rasterize, the next frame is skipped although it is further from the last delivered one than the bound without failures |
| `GovernorRegions.CountsChanged` | packages/multimodal-agent-runtime/src/governor.ts:164-200 | the count is the number of blocks whose difference reaches the threshold |
| `GovernorRegions.BoxIsTight` | packages/multimodal-agent-runtime/src/governor.ts:178-193 | the bounding box is the smallest: a changed block touches each of its sides |
| `GovernorRegions.SampleIsCentralPixel` | packages/multimodal-lab/src/index.ts:1115-1132 | each sample of a whole raster is the wanted channel of the pixel that holds the centre of its cell |
| `GovernorRegions.AxisIsFitted` | packages/multimodal-agent-runtime/src/governor.ts:202-229 | a region's side is the span of the changed cells and its padding, cut at the frame, and no wider, unless the minimum asks for more, which is added around it as evenly as the frame allows |
| `GovernorRegions.RegionIff` | packages/multimodal-agent-runtime/src/governor.ts:121-147 | a compared frame that is not skipped is delivered as a region exactly when that takes at most maxRoiFraction of the frame and whole otherwise; rasterizing fails only for a region |
| `GovernorRegions.ObservationReports` | packages/multimodal-agent-runtime/src/governor.ts:84-162 | each observation carries the next sequence number and, against the previous frame, the mean distance and the share of changed blocks; only a keyframe moves the last keyframe and clears the forced reason |
| `PassiveTimeline.ComputeSignatureDifference` | packages/multimodal-agent-runtime/src/passive.ts:121-134 | the loop computes the mean channel difference, or nothing for incomparable signatures |
| `PassiveTimeline.SchedulerAndGovernorAgree` | packages/multimodal-agent-runtime/src/passive.ts:121-134 | on signatures of three channels a block the scheduler measures the same distance as the governor |
| `PassiveTimeline.UnionHoldsIff` | packages/multimodal-agent-runtime/src/passive.ts:136-142 | with the latest crop inside the frame, so is the union, and it holds exactly the crops that lie inside the frame too |
| `PassiveTimeline.DeliveryCoversIff` | packages/multimodal-agent-runtime/src/passive.ts:388-410 | the delivered region, after union, fraction fallback and keyframe merging, holds the regions of all coalesced samples if and only if they fit the latest frame |
| `PassiveTimeline.PassiveObservationScheduler.Sample` | packages/multimodal-agent-runtime/src/passive.ts:247-303 | one sample moves counters, queue, events, signatures and the embedded governor as the specification does, whichever rasterization throws |
| `PassiveTimeline.PassiveObservationScheduler.FlushPending` | packages/multimodal-agent-runtime/src/passive.ts:334-376 | a flush empties the queue and appends its event with its counters, or loses the queue when rasterizing throws |
| `PassiveTimeline.PassiveObservationScheduler.Flush` | packages/multimodal-agent-runtime/src/passive.ts:305-308 | flush does nothing on an empty queue |
| `PassiveTimeline.PassiveObservationScheduler.Reset` | packages/multimodal-agent-runtime/src/passive.ts:228-245 | reset returns scheduler and governor to their start |
| `PassiveTimeline.SamplesAreConserved` | packages/multimodal-agent-runtime/src/passive.ts:247-376 | over every run the event sample counts plus the queue plus the lost samples are the non-skipped samples, coalescedSamples and deliveredBytes are their sums over events, and events and queue laid end to end are a subsequence of the accepted samples, and all of them if and only if nothing was lost |
| `PassiveTimeline.EventsReportTheirSamples` | packages/multimodal-agent-runtime/src/passive.ts:334-376 | every event reports its batch: 1 <= sampleCount <= maxCoalescedSamples, consecutive numbering, disjoint increasing index ranges, keyframe exactly when the batch has one, and otherwise all samples within the coalesce window of the first |
| `PassiveTimeline.EventsCoverIff` | packages/multimodal-agent-runtime/src/passive.ts:334-410 | over every run, whatever was lost, the region of an event holds a sample's region exactly when that fits the event's latest frame, and then shows every block that changed in the sample |
| `PassiveTimeline.EventsShowEveryChange` | packages/multimodal-agent-runtime/src/passive.ts:388-410 | over every run, the region of every event whose samples are of one frame size shows every block that changed in each of them |
| `PassiveTimeline.OneSizeShowsEveryChange` | packages/multimodal-agent-runtime/src/passive.ts:388-410 | hence in a run of one frame size every event shows every change, whatever fails |
| `PassiveTimeline.NothingLostShowsEveryChange` | packages/multimodal-agent-runtime/src/passive.ts:388-410 | and so it does, whatever the frame sizes, in a run that lost nothing |
| `PassiveTimeline.StaleQueueLosesCoverage` | packages/multimodal-agent-runtime/src/passive.ts:247-303 | the failing family is inhabited: a keyframe lost when its boundary raster fails leaves a sample of the old frame size in the queue, and the event over it and a smaller frame does not hold its region |
| `PassiveTimeline.SampleLosesIff` | packages/multimodal-agent-runtime/src/passive.ts:247-303 | a sample call loses samples exactly when it throws after the frame was counted, unless it was a skipped frame whose boundary raster failed |
| `PassiveTimeline.ReturningCallsLoseNothing` | packages/multimodal-agent-runtime/src/passive.ts:247-376 | a run in which every call returns loses nothing |
| `PassiveBoundaries.LastTwoAreKept` | packages/multimodal-agent-runtime/src/passive.ts:292-302 | over every preserving run the two signatures kept are those of the last two samples whose calls returned since the last reset |
| `PassiveBoundaries.SampleCutsIff` | packages/multimodal-agent-runtime/src/passive.ts:247-303 | over every run, a call that returns delivers what waited, and exactly that, as an interrupted event if and only if its frame is back at the frame before last, within the return threshold and the ratio of the pulse, after a pulse of at least the pulse threshold; otherwise the queue is closed before the sample exactly when its window is over, and after it exactly for a keyframe or a full batch |
| `PassiveBoundaries.EventDelivers` | packages/multimodal-agent-runtime/src/passive.ts:334-410 | over every run an event delivers a region exactly when every sample has one and the union takes at most the allowed share of the latest frame, and then that union or the only sample's own; scene epochs, disposition and reason are those of its batch |
| `PassiveBoundaries.HullIsTight` | packages/multimodal-agent-runtime/src/passive.ts:136-142 | the union is the smallest: each edge is one of some crop |
| `PassiveBoundaries.EpochMovesIff` | packages/multimodal-agent-runtime/src/passive.ts:259-268 | a sample opens a new scene epoch exactly when it is not skipped and its frame differs from the one before |
| `PolicyRanking.RankObservationPolicies` | packages/multimodal-agent-runtime/src/policy-benchmark.ts:261-347 | the method refuses or ranks as the specification that the lemmas below describe: validation in input order, measures, flags set in place, sorting |
| `PolicyRanking.MarkPareto` | packages/multimodal-agent-runtime/src/policy-benchmark.ts:327-341 | the in-place marking gives every card the flag it has on the unmarked cards |
| `PolicyRanking.RankedIff` | packages/multimodal-agent-runtime/src/policy-benchmark.ts:277-302 | a ranking exists exactly for a non-empty list of distinct policies with whole, non-negative, mutually consistent metrics |
| `PolicyRanking.MeasuresInUnit` | packages/multimodal-agent-runtime/src/policy-benchmark.ts:256-324 | every measure and the weighted score lie in [0, 1] |
| `PolicyRanking.CardIsMeasured` | packages/multimodal-agent-runtime/src/policy-benchmark.ts:303-324 | of a plausible input, byte efficiency times the full bytes is the bytes saved (none if more were delivered), guard reliability, exact retention and perceptual coverage times their totals are their counts, each is 0 of an empty total, transient retention is 1 exactly when the flag is set, and the score weighs them 25, 25, 25, 10 and 15 hundredths |
| `PolicyRanking.LighterIsFirstIff` | packages/multimodal-agent-runtime/src/policy-benchmark.ts:303-346 | in every ranking, of two inputs alike but for policy and bytes the lighter comes first if and only if it saves any bytes at all, or else has the smaller policy name |
| `PolicyRanking.RefusalNamesTheFirst` | packages/multimodal-agent-runtime/src/policy-benchmark.ts:277-302 | a refused non-empty list is refused for the first input that does not fit those before it, and for the first thing wrong with it |
| `PolicyRanking.RankingIsSound` | packages/multimodal-agent-runtime/src/policy-benchmark.ts:326-346 | the cards are a permutation of the inputs in falling score, each measured as below, the recommended one is Pareto-optimal, and every card that is not is dominated by an optimal card |
| `PolicyRanking.ChangedPoints` | packages/multimodal-agent-runtime/src/policy-benchmark.ts:352-380 | the loop lists the centres of the changed blocks, of all blocks without a comparable previous frame |
| `PolicyRanking.CoverageIsFullIff` | packages/multimodal-agent-runtime/src/policy-benchmark.ts:382-390 | coverage is a share in [0, 1], and 1 exactly when there are points and the region, if any, holds all of them |
| `PolicyRanking.CoverageCounts` | packages/multimodal-agent-runtime/src/policy-benchmark.ts:382-390 | coverage times the number of points is the number of points in the region, border included; without a region all count, and of no points it is 0 |
| `PolicyRanking.PointsAreCentresIff` | packages/multimodal-agent-runtime/src/policy-benchmark.ts:352-380 | the points are exactly the middles of the grid cells whose block changed, or of all cells without a comparable previous frame |
| `PolicyRanking.GovernedRegionsCoverFully` | packages/multimodal-agent-runtime/src/policy-benchmark.ts:352-390 | a region the governor delivers covers the changed points of its frame fully |
| `Coordinates.PickResolvesToWhatIsShown` | packages/multimodal-agent-runtime/src/index.ts:343-355 | a point picked on an image, whole or cropped, in frame pixels or normalized, projects and resolves to the world point that the image's viewBox shows there |
| `Coordinates.GestureResolvesToWhatIsShown` | packages/multimodal-agent-runtime/src/index.ts:357-370 | the same for every point of every gesture, in order |
| `Coordinates.BoxShowsWorld` | packages/multimodal-lab/src/index.ts:1104-1114 | the viewBox of a crop shows at each pixel the world point of the frame pixel it was cropped from |
| `Coordinates.WholeImageResolves` | packages/multimodal-lab/src/index.ts:957-974 | without a crop a pick is accepted exactly when it lies on the frame, and its error names the space it was given in |
| `Coordinates.PanBringsGrabbedPointUnderPointer` | packages/multimodal-lab/src/index.ts:912-918 | a pan puts the grabbed world point under the pointer and leaves zoom and size, and is refused exactly when the pointer did not move |
| `Coordinates.ZoomScalesAboutAnchor` | packages/multimodal-lab/src/index.ts:919-934 | an accepted zoom stays within the clamp, keeps the anchor's world point and scales all distances to it by the ratio of the zooms |
| `Coordinates.ZoomGoesTo` | packages/multimodal-lab/src/index.ts:919-934 | a zoom goes to the product with the factor or to the nearer limit, 0.1 or 8, and is refused exactly for a factor that is not positive or is 1, and where the limit leaves the zoom as it is |
| `Coordinates.EveryZoomRunKeepsAnchor` | packages/multimodal-lab/src/index.ts:919-934 | any run of zooms about one frame point, refused ones included, keeps its world point |
| `Coordinates.ZoomOutUndoesZoomIn` | packages/multimodal-lab/src/index.ts:919-934 | zooming back by the inverse factor about the same point restores the viewport, unless the clamp bit |
| `Coordinates.TopHitIsTopmost` | packages/multimodal-lab/src/index.ts:982-995 | the hit object passes the visibility and hit tests and every other object that passes is painted no later |
| `Coordinates.DescendingIsBackwards` | packages/canvas-core/src/index.ts:139-145 | sorting by the opposite comparison gives the paint order backwards |
| `Coordinates.HitTest` | packages/multimodal-lab/src/index.ts:982-995 | the search from the front of the descending list finds the object painted last among those hit |
| `Coordinates.HitIff` | packages/multimodal-lab/src/index.ts:982-995 | hit is exactly an object that is not transparent and whose box, border included, holds the point, and for an ellipse one of positive size whose equation, cleared of its denominators, it satisfies |
| `Coordinates.TopHitIsInFront` | packages/multimodal-lab/src/index.ts:982-995 | in the objects' own terms, no other hit object of the canvas has a greater zIndex, nor a later id at the same one |
| `LivePortal.LiveSurfaceBudget.Activate` | packages/portal-overlay/src/index.ts:72-84 | the clocked map refines a move-to-front list cut to the limit, and evicts exactly what the cut drops |
| `LivePortal.LiveSurfaceBudget.Touch` | packages/portal-overlay/src/index.ts:86-91 | touching a known id moves it to the front |
| `LivePortal.LiveSurfaceBudget.Deactivate` | packages/portal-overlay/src/index.ts:93-95 | deactivating removes the id and keeps the order |
| `LivePortal.LiveSurfaceBudget.Active` | packages/portal-overlay/src/index.ts:97-99 | the active list is the move-to-front list |
| `LivePortal.VisibleIff` | packages/portal-overlay/src/index.ts:31-60 | an overlay rect is visible exactly when its interior meets the client area, border included; the interiors meet exactly when moreover the client area has positive width and height |
| `LivePortal.EmptyAreaIsStraddled` | packages/portal-overlay/src/index.ts:31-60 | the difference is inhabited: a client area of no width straddled by a rect that counts as visible |
| `LivePortal.CanvasLivePortalCoordinator.Activate` | packages/portal-overlay/src/runtime.ts:120-231 | activate checks descriptor, host and geometry and then moves mounted map, records and budget as the specification does, with every host failure |
| `LivePortal.CanvasLivePortalCoordinator.SyncGeometry` | packages/portal-overlay/src/runtime.ts:234-303 | the loop over the mounted portals, stopped by the first failing host |
| `LivePortal.CanvasLivePortalCoordinator.Deactivate` | packages/portal-overlay/src/runtime.ts:305-310 | deactivation leaves budget, map and record consistent and tells whether the portal was mounted |
| `LivePortal.ActivationShows` | packages/portal-overlay/src/runtime.ts:158-230 | a visible activation that succeeds puts the portal at the front of the budget, mounted with its handle, keeping focus and owner exactly when the handle did not change; a failing host leaves it invisible and off the budget |
| `LivePortal.EveryRunIsSafe` | packages/portal-overlay/src/runtime.ts:84-360 | over all call sequences, with mount and update allowed to fail: the record agrees with the mounted map, exactly the ids in the budget are visible, and focus or control needs a visible portal |
| `LivePortal.VisiblePortalsFitTheBudget` | packages/portal-overlay/src/runtime.ts:84-360 | hence at most limit portals are visible, all of them mounted |
| `LivePortal.ControlPassesThroughNobody` | packages/portal-overlay/src/runtime.ts:92-118 | over any run, between two different owners of a portal there is a moment without one |
| `PortalCalls.OverlayCoversObject` | packages/portal-overlay/src/index.ts:31-60 | an overlay exists exactly for a positive zoom and a client area without negative size, and its four edges are shown where the object's edges lie on the canvas, at any camera |
| `PortalCalls.ActivateChecks` | packages/portal-overlay/src/runtime.ts:120-135 | an activation is refused for an object that is not live, a missing host and bad geometry, in this order, and then changes nothing |
| `PortalCalls.ActivationMakesRoom` | packages/portal-overlay/src/runtime.ts:158-230 | a visible activation costs at most one other portal its place, which is then unmounted and hidden, and none while the budget has room |
| `PortalCalls.OffscreenHides` | packages/portal-overlay/src/runtime.ts:136-156 | an activation out of sight hides the portal, takes it off the budget and leaves it mounted if it was, unless the host does not answer, which changes nothing |
| `PortalCalls.DeactivateRemoves` | packages/portal-overlay/src/runtime.ts:305-310 | deactivating takes the portal off screen, budget and host and touches no other |
| `PortalCalls.DeactivateAllRemoves` | packages/portal-overlay/src/runtime.ts:312-314 | deactivating a list of portals does so for each of them and touches no other |
| `PortalCalls.SyncRound` | packages/portal-overlay/src/runtime.ts:234-303 | one round of the loop removes an outdated portal, hides one that is out of sight or whose host fails, and shows any other with the focus and owner it had, making room only for a portal that had no place |
| `PortalCalls.SyncInOrder` | packages/portal-overlay/src/runtime.ts:234-303 | the loop goes through the portals in order and stops at the first error |
| `PortalCalls.ControlIff` | packages/portal-overlay/src/runtime.ts:92-118 | control goes to a named principal, of a visible portal, that nobody else controls; only the owner releases it; anyone revokes it of a known portal; a refused call changes nothing |
| `PortalCalls.FocusIff` | packages/portal-overlay/src/runtime.ts:84-91 | a known portal can always lose the focus, and gets it exactly while it is visible |
| `RuntimeManager.HdsrcRuntimeManager.JoinStart` | packages/provider-hdsrc/src/runtime-manager.ts:166-177 | the synchronous part of a start: refused when stopped, the ready provider, the start in flight, or a new one |
| `RuntimeManager.HdsrcRuntimeManager.ContinueStart` | packages/provider-hdsrc/src/runtime-manager.ts:178-182 | after discovery a start fails, finds the manager stopped, or makes one provider |
| `RuntimeManager.HdsrcRuntimeManager.AnswerCapabilities` | packages/provider-hdsrc/src/runtime-manager.ts:182-196 | after the capabilities the provider is stored and the epoch counted, or it is closed |
| `RuntimeManager.HdsrcRuntimeManager.Fail` | packages/provider-hdsrc/src/runtime-manager.ts:206-243 | the catch blocks rethrow, degrade, or degrade and restart as specified |
| `RuntimeManager.HdsrcRuntimeManager.StopRuntime` | packages/provider-hdsrc/src/runtime-manager.ts:154-160 | stop closes the stored provider once |
| `RuntimeManager.EveryRunKeeps` | packages/provider-hdsrc/src/runtime-manager.ts:166-255 | every interleaving of operations, discovery, starts, failures and stop keeps the manager's and the operations' invariants |
| `RuntimeManager.ProvidersAreAccountedFor` | packages/provider-hdsrc/src/runtime-manager.ts:154-255 | in every reachable world a provider is stored exactly when the state is ready, at most one created provider is unclosed, none is once stopped with no start in flight, and the epoch counts the successful starts |
| `RuntimeManager.StoppedIsForGood` | packages/provider-hdsrc/src/runtime-manager.ts:154-182 | nothing that happens after stop leaves it, makes a provider or stores one |
| `RuntimeManager.DiscoveryAnswers` | packages/provider-hdsrc/src/runtime-manager.ts:90-108 | in every run, a discovery that finds a runtime before any stop is remembered and is the last; any other leaves the manager as it was, free to look again until it is stopped |
| `RuntimeManager.StopCloses` | packages/provider-hdsrc/src/runtime-manager.ts:154-160 | in every run a stop closes the stored provider and leaves whatever waits or runs as it was |
| `RuntimeManager.StoppedRefuses` | packages/provider-hdsrc/src/runtime-manager.ts:154-182 | once stopped, a new operation fails without invoking anything, and a start under way fails, with its provider, if it has one, closed |
| `RuntimeManager.InvocationsAreBounded` | packages/provider-hdsrc/src/runtime-manager.ts:206-243 | a safe operation invokes at most twice, the second time only after a transport failure, an unsafe one at most once |
| `RuntimeManager.FailureMoves` | packages/provider-hdsrc/src/runtime-manager.ts:206-255 | in every run a failing operation tries again exactly when it is safe, this was its first attempt, it failed in transport and a runtime had been found; its retry joins the start in flight or makes one, or ends when stopped; the failure degrades the manager and closes its provider, unless it is the provider's own error or, before any stop, nothing had been found, which change nothing |
| `RuntimeManager.StartSucceeds` | packages/provider-hdsrc/src/runtime-manager.ts:178-204 | from any world with a start under way, if discovery, capabilities and invocation go well, the operation is answered by a new provider, which the manager keeps and counts |
| `RuntimeManager.RetrySucceeds` | packages/provider-hdsrc/src/runtime-manager.ts:206-243 | in any run, a safe operation whose invocation fails in transport is answered by a fresh provider on its second invocation, if the restart goes well, and the old provider is closed |
| `RuntimeManager.FirstStartSucceeds` | packages/provider-hdsrc/src/runtime-manager.ts:166-204 | so is an operation that finds no provider and no start in flight, with discovery when there was none |
| `RuntimeManager.WaitersShareTheStart` | packages/provider-hdsrc/src/runtime-manager.ts:166-177 | an operation that begins during a start waits for that start and moves nothing else, and each waiter is answered with the result the start settles with |
| `NvclRuntime.Run` | packages/nvcl-runtime/src/index.ts:464-603 | for any agent the loop ends within maxIterations; status, iterations and tool calls are decided by the first iteration that does not go on; bestScore is the least observed score; a run that did not complete leaves what the best snapshot holds, or the canvas it had when restoring failed |
| `NvclRuntime.BestIsLeast` | packages/nvcl-runtime/src/index.ts:506-508 | the remembered iteration has the least observed score and is the first to have it |
| `NvclRuntime.StoredIsBestIff` | packages/nvcl-runtime/src/index.ts:507-513 | the best snapshot holds that canvas exactly when its snapshot was taken, and otherwise a strictly worse one |
| `NvclRuntime.FallbackIsBestIff` | packages/nvcl-runtime/src/index.ts:530-535 | a run that restored leaves the observed canvas of least score and final issues scoring exactly bestScore if and only if the snapshot of that canvas was taken |
| `NvclRuntime.MissedSnapshotRestoresWorse` | packages/nvcl-runtime/src/index.ts:506-535 | the failing family is inhabited: a run that reports the best score 0 restores a canvas whose issues score 100 |
| `NvclRuntime.StoredIsLastTaken` | packages/nvcl-runtime/src/index.ts:506-513 | the snapshot kept is that of the last iteration that beat all before it and whose snapshot was taken, or the initial one |
| `NvclRuntime.GivesUpIff` | packages/nvcl-runtime/src/index.ts:555-571 | a tool call ends the run exactly when it is the last of maxConsecutiveFailures failed calls in a row |
| `NvclRuntime.ScoreCounts` | packages/nvcl-runtime/src/index.ts:668-670 | a score is a hundred for each error, ten for each warning and one for any other issue |
| `NvclRuntime.ChecksRunIff` | packages/nvcl-runtime/src/index.ts:660-666 | a check runs exactly when every object it names is on the canvas: both of an overlap check, the one of a bounds check, and any other check always |

## Left out

- Timestamps, actors, intents, affected object ids and event payloads: labels that no property depends on.
- Hash strings: a state hash is the hashed view itself, that is, SHA-256 is taken to be injective.
- SQLite, HTTP, MCP routing, SVG text, rasterization and PNG bytes: a raster is a size and its pixels, and each call that may throw has its outcome as a parameter.
- UTF-8 and JSON inside WebSocket messages, fragmented frames and 64-bit lengths; the decoder refuses the last, and a 16-bit length of 127 with them.
- Presence, identity, tokens and portal descriptor validation.
- Floating point: geometry, scores and thresholds are exact reals, and counts are unbounded integers.
- Frame leases by age, the pruning of frames, action fingerprints and recorded results: the freshness check's outcome is a parameter of the history steps.
- Gestures other than pan and zoom after their points are resolved: the patches they build are single-object operations of the store.
- Rotation and scale of objects under a point: the program's hit test ignores them too.
- The labels of a scene event that list all reasons and the greatest scores of its samples.
- The MCP tools around lineage, and the transactions that fold a subcanvas.
- The viewport staying fixed, verification depending on the canvas alone and nobody else editing it are assumptions of the NVCL loop's model.
- Unmounting an evicted or deactivated portal fails nowhere in the model; only the unmount before a remount may, which the program handles.
- The hub as an object: its peers are the sockets of a world value, and its input buffer is a value too, so sharing between the hub and its sockets is not captured; the client, the room and the log are classes.
- SyncProtocol.ExactlyOnceInOrder: assumes atomic applies, because overlapping ones are not strict, and no acted-on connect beside an open socket that could still hand something over, which SyncProtocol.ConnectIsSafeIff shows to be the exact condition.
- MultimodalLab.CommitsOnWhatTheFrameShowed: covers transactions at the awaits, not whole-state replacements there, which the program does not guard against.
- SyncRegistry.CanvasSyncRegistry.ReplaceAll: rooms are values in a map rather than room objects, so aliasing between a room and its hub is not captured.
- PassiveTimeline.PassiveObservationScheduler.Sample: the counters are one record field instead of ten fields.
- NvclRuntime.Run: the agent and the tools are given as the decision each iteration meets, so what the agent sees is not modelled; every agent's run is such a script.

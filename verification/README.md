# State Movement Fabric: verified model

State Movement Fabric moves immutable state objects between endpoints under a
coordinator's authority. This project models its hard core in Dafny and proves what the
design promises of it, for every input, every run and every reachable state.

- **Commit and reconciliation** (`Protocol`, `ProtocolView`, `ProtocolRuns`,
  `ProtocolTheorems`, `ProtocolOutcomes`, `ProtocolScripts`, `ProtocolCancel`,
  `ProtocolRetries`): the coordinator's workers, the destination's FIFO control inbox and the commit markers on its
  disk, as a state machine whose adversary loses messages, delays replies, kills processes
  and restarts the coordinator at any point. The invariant is stated on what one movement
  can see, so each step is a small proof. Where a promise fails, concrete runs show it and a
  theorem says exactly when it holds.
- **The movement log** (`MovementLog`, `MovementStore`, `Retention`, `StoreRuns`,
  `StoreHistory`, `StoreObject`): an in-memory index and a checksummed append-only file, kept in step across
  puts, retention, compaction, torn tails and reopening, down to the bytes.
- **The record** (`Movement`, `RecordObject`, `RecordCodec`, `WireLayout`): the transition table, bounded
  provenance, and the canonical encoding in both directions.
- **Staging and the object store** (`StateObject`, `Staging`, `ObjectStore`,
  `StagingObject`): segmentation arithmetic, the journalled writer with every crash point,
  promotion, write-once markers, and what an authority report vouches for.
- **The data session** (`DataSession`): the windowed acknowledgement scheme between two
  concurrently running endpoints.
- **The byte layer** (`Utf8`, `Codec`, `Sha256`, `Framing`, `Topology`), with `Sha256Standard`
  and `Sha256Vector` holding the hash against FIPS 180-4 and RFC 2104.

Objects that the source updates in place are classes here; each method is tied to a
function, and the results about runs are about those functions. SHA-256 and HMAC are
parameters everywhere outside `Sha256`: no collision-freedom is assumed anywhere, and what is
proved holds of `Sha256.Hash` and `Sha256.Hmac` in particular.

Assumptions of the protocol model: one actor at a time owns a movement's record, an endpoint
store has at most one live process, movement ids are not reused, a store write happens or the
process stops, and placed objects and markers are removed or damaged by nobody: the agent never asks
its store to remove them (src/endpoint_agent.cpp:1511-1513). `ObjectStore` drops the last
assumption.

## Where the code and its documentation differ

The model follows the code.

- An unknown outcome is documented to be resolved only by reconciliation
  (src/movement.cpp:49-50), but `cancel` accepts one. It also accepts a VERIFIED movement, whose
  commit request may be out when a recovery did not list it. Cancelling is safe exactly in the
  other states (`SafeToCancelIff`).
- A journal that claims more than its bytes support is documented to be discarded
  (src/object_store.cpp:798-800); `begin` returns an error instead. That state is reachable only
  through a crash inside a promotion or a removal (`BeginRefusedIff`, `OrphanRefused`).
- `validate` does not check `last_detail` for UTF-8 and `save_coordinator_state` does not check
  the epoch, but both decoders do. Either makes the log unopenable until a compaction drops the
  entry (`UnhealthyRefused`, `CompactInv`).
- `apply_transition` changes the state before its provenance append can fail
  (`RefusalLeavesStateIff`).
- The window is not negotiated: the endpoints ignore the value in the registration answer and
  use their own configurations, which need not agree (`CompletesIff`).
- A retry after a failed transfer is announced but not in the transition table: only a failed
  verification is retried, and after a failed transfer the record stays TRANSFERRING with nobody
  to move it on (`RetriedIff`, `StrandedStays`, `StrandedRun`).
- A marker file that decodes but does not read back as its version's marker is refused by
  `authority`, yet a commit with the same seal is told that it is already there
  (`CommitGrantsIff`, `RepeatedWithoutAuthority`).
- `DataBegin` does not encode its resume fields (src/wire.cpp:1358-1405), so the source always
  acknowledges chunk zero, and the destination aborts every session whose writer has resumed. The
  journal stays, so no later session opens either (`SessionOpensIff`, `ResumeRefusedRun`).
- The topology generation is documented to survive a restart (include/smf/topology.hpp:4-7); it is
  saved but never loaded, so every coordinator process begins at two (`NeverFallsIff`,
  `GenerationReused`).
- Handshake messages are documented to be exchanged only before the session is keyed
  (src/framing.cpp:268-269). `encode` enforces that, but `verify` accepts an untagged one at any
  time, and it then takes the number of a frame that was sent (`AcceptedPrefixIff`,
  `StrayTakesTheNumber`).

## Model

| member | source | states |
|---|---|---|
| `Protocol.MoveIsTransition` | src/movement.cpp:390-419 | The protocol's transition of its record view is `apply_transition` of the full record: accepted for the same inputs, the last generation included, with the same result. |
| `Protocol.BeginIsAttempt` | src/movement.cpp:421-442 | The protocol's attempt step is `record_attempt_started` of the full record. |
| `Protocol.NoteIsAppend` | src/provenance.cpp:164-194 | The protocol's note is a provenance append whose failure is ignored: kept while there is room and the text is well formed, dropped otherwise. |
| `ProtocolRuns.StepInv` | src/coordinator.cpp:1168-1478 | Every step of every actor, in any order (send, lose, handle, crash, restart, recover, reconcile, cancel, retire), keeps the protocol invariant for every movement at once. |
| `ProtocolRuns.RunInv` | src/coordinator.cpp:1168-1478 | The invariant holds in every state of every run. |
| `ProtocolRuns.SendCommitStep` | src/coordinator.cpp:1430-1443 | Sending the one commit request, delivered or lost, keeps every movement's view sound. |
| `ProtocolRuns.CommitAnswerStep` | src/coordinator.cpp:1443-1474 | Any commit result, however late, keeps every movement's view sound: COMMITTED is stored only with the marker in place, FAILED only without effect. Which of them is stored is `CommitAnswerRecorded`. |
| `ProtocolRuns.HandleCommitStep` | src/endpoint_agent.cpp:1344-1416 | Handling a commit request, willing or not, with the version already committed or not, keeps every movement's view sound, including other movements of the same version. |
| `ProtocolRuns.HandleQueryStep` | src/endpoint_agent.cpp:1477-1505 | An authority report says what is on disk at its place in the FIFO inbox: behind it no commit request of that movement can follow. |
| `ProtocolRuns.ReconcileAnswerStep` | src/coordinator.cpp:1043-1084 | Resolving an unknown outcome from a report, even a late one from an earlier query, is sound in both directions. |
| `ProtocolRuns.RecoverStep` | src/coordinator.cpp:146-174 | One turn of recovery keeps every movement's view sound. |
| `ProtocolRuns.CancelStep` | src/coordinator.cpp:966-1001 | An operator's cancellation of a record nobody owns keeps every movement's view sound. |
| `ProtocolTheorems.CommittedHasMarker` | src/coordinator.cpp:1430-1474 | In every run with lost messages, process deaths and coordinator restarts, a stored COMMITTED record means its destination holds a marker for that version sealed with the digest the record carries. |
| `ProtocolTheorems.NegativeIsFinal` | src/coordinator.cpp:1063-1084 | Once a movement is stored FAILED or SUPERSEDED, or CANCELLED other than by an operator while it was VERIFIED or OUTCOME_UNKNOWN, no marker names it and no later step of the run writes one. |
| `ProtocolTheorems.NegativeReconciliation` | src/coordinator.cpp:1003-1091 | A report that no marker is present resolves the movement to FAILED (never CANCELLED, since a stored open record never carries the cancel flag), and it stays without effect for ever. |
| `ProtocolTheorems.RunGrows` | src/object_store.cpp:496-541 | In every run of coordinator and agents a commit marker, once written, stays there unchanged; so do plans, first verdicts and settled outcomes. |
| `ProtocolTheorems.VerdictStands` | src/coordinator.cpp:146-174 | The first terminal state stored for a movement, and its marker digest, never change again, restarts and recovery included. |
| `ProtocolTheorems.BoundedEffort` | src/coordinator.cpp:1234-1440 | Across every run, restarts included, a movement is granted at most max_attempts attempts and sends at most one commit request. |
| `ProtocolTheorems.RecoveryComplete` | src/coordinator.cpp:135-183 | When recovery ends, every movement it listed is terminal or OUTCOME_UNKNOWN, unless its provenance is full. |
| `ProtocolRetries.DispatchIff` | src/coordinator.cpp:1306-1318 | A dispatch goes through if and only if the record is AUTHORIZED or BYTES_ARRIVED and its history has room; refused from TRANSFERRING it leaves the stored record as it was, held and queued by nobody. |
| `ProtocolRetries.RetriedIff` | src/coordinator.cpp:1234-1412 | In every run, for every attempt n >= 2: its dispatch goes through if and only if what ended attempt n - 1 was a failed verification (and there is room). After a failed transfer it never does, and the record is stranded. |
| `ProtocolRetries.StrandedStays` | src/coordinator.cpp:1306-1318 | A stranded record stays TRANSFERRING, unchanged, unowned and unqueued, through every continuation of every run until the operator cancels it or the coordinator stops. |
| `ProtocolRetries.StrandedRun` | src/coordinator.cpp:1355-1371 | With two or more attempts allowed there is such a run: one failed transfer, the next attempt granted, its dispatch refused. |
| `ProtocolCancel.SafeOutsideCommitting` | src/coordinator.cpp:966-1001 | Cancelling a movement stored in any state but VERIFIED and OUTCOME_UNKNOWN guarantees, in every continuation of every run, that it never takes effect. |
| `ProtocolCancel.SoundCancel` | src/coordinator.cpp:966-1001 | The same for a VERIFIED movement when the last recovery listed it. |
| `ProtocolCancel.CancelledYetCommitted` | src/coordinator.cpp:966-1001 | A concrete run in which a cancelled movement's marker is on the destination's disk: the outcome was unknown when it was cancelled. |
| `ProtocolCancel.CancelledWhenUnlisted` | src/coordinator.cpp:135-183 | For every bound on the records a recovery lists, a concrete run in which a movement left VERIFIED by it is cancelled although its marker is on disk. |
| `ProtocolCancel.SafeToCancelIff` | src/coordinator.cpp:966-1001 | Exactly, over all runs: cancelling is safe if and only if the stored state is neither VERIFIED nor OUTCOME_UNKNOWN. |
| `ProtocolOutcomes.CommitAnswerRecorded` | src/coordinator.cpp:1443-1474 | In every run, when the history has room: the stored record becomes COMMITTED with the seal of the reply if and only if the reply reports success at the record's own generation, FAILED if and only if it reports a refusal there in well-formed text, OUTCOME_UNKNOWN if and only if it names another generation. |
| `ProtocolOutcomes.ReconcileAnswerRecorded` | src/coordinator.cpp:1043-1084 | In every run, when the history has room: a report resolves the unknown outcome to COMMITTED with its seal if and only if a marker is present and its bytes vouch for it, to FAILED if and only if none is present, and otherwise leaves it unknown. |
| `ProtocolOutcomes.RecoverRecorded` | src/coordinator.cpp:146-174 | One turn of recovery, with every other movement untouched: PLANNED becomes FAILED, any other open state OUTCOME_UNKNOWN, a terminal, unknown or full record stays as it is. |
| `ProtocolOutcomes.CancelRecorded` | src/coordinator.cpp:966-1001 | A cancellation of any open record is stored as CANCELLED with its flag whenever the history has room, and otherwise changes nothing; no other movement is touched. |
| `ProtocolOutcomes.ProgressRecorded` | src/coordinator.cpp:1379-1428 | A good transfer result is stored as BYTES_ARRIVED and an accepted verification as VERIFIED, and the same worker goes on to the next phase of the same attempt. |
| `ProtocolOutcomes.HandleCommitRecorded` | src/endpoint_agent.cpp:1344-1416 | A willing destination commits an uncommitted version under the seal given and repeats a commit of the same seal; it refuses all else. The reply says which, at the request's own generation, and is sent exactly when the link is up. |
| `ProtocolOutcomes.HandleQueryRecorded` | src/endpoint_agent.cpp:1477-1505 | The report sent says whether the version's marker is on disk, whether its bytes vouch for it, and under which seal; nothing else changes. |
| `ProtocolOutcomes.CommittedRun` | src/coordinator.cpp:1430-1474 | There is a run from the start that ends COMMITTED with the seal of the marker on the destination's disk. |
| `ProtocolOutcomes.ReconciledRun` | src/coordinator.cpp:1003-1084 | There is a run in which the commit reply is lost, the outcome is stored as unknown, and reconciliation finds the marker and stores COMMITTED with its seal. |
| `MovementLog.FreshHeaderOk` | src/movement_store.cpp:171-180 | The header a new store writes passes every check `open` makes. |
| `MovementLog.ScanFrame` | src/movement_store.cpp:215-287 | A complete record is found by the recovery scan, whatever follows it. |
| `MovementLog.ScanCut` | src/movement_store.cpp:215-287 | A record cut anywhere, inside its header or its payload, is a torn tail and never corruption. |
| `MovementLog.FoundIsFrame` | src/movement_store.cpp:226-260 | Whatever the scan accepts is byte for byte the record the store would have written. |
| `MovementLog.ReplaysIff` | src/movement_store.cpp:319-358 | A log replays if and only if each of its entries decodes on its own. |
| `MovementLog.RecoverFrames` | src/movement_store.cpp:215-294 | Recovery of complete records followed by a part of the next yields exactly their replay and reports the tear; it is refused if one of them cannot be applied. |
| `MovementLog.RecoveredIsFrames` | src/movement_store.cpp:215-294 | On arbitrary bytes: whatever recovery accepts begins with the frames of the entries it recovered, in strictly increasing sequence. |
| `MovementLog.CutRecovers` | src/movement_store.cpp:215-294 | For every readable log and every cut of it: exactly the records wholly before the cut come back, and a second recovery finds the same with nothing torn. |
| `MovementStore.PutInv` | src/movement_store.cpp:392-410 | A put keeps index and log in step; the log stays readable exactly when an accepted record's detail text is UTF-8. |
| `MovementStore.SaveInv` | src/movement_store.cpp:595-602 | Saving coordinator state keeps index and log in step; the log stays readable exactly when the saved epoch is set. |
| `MovementStore.RetireStepInv` | src/movement_store.cpp:412-425 | A retirement keeps index and log in step and never makes the log unreadable. |
| `MovementStore.CompactInv` | src/movement_store.cpp:504-593 | Compaction, which renumbers from one without resetting the counter, keeps the counting invariant; the compacted log is readable exactly when every live entry is. |
| `MovementStore.ReopenInv` | src/movement_store.cpp:123-317 | After a crash at any byte the store opens sound and readable, holding the records wholly before the cut; with nothing cut it holds exactly what it held. |
| `Retention.RetainExact` | src/movement_store.cpp:472-502 | Retention retires only terminal movements, keeps the records and the order of the rest, and when due leaves exactly the larger of the retention count and the number of non-terminal movements. |
| `Retention.OldestFirst` | src/movement_store.cpp:482-489 | If a terminal movement is retired, every older terminal movement is retired too. |
| `Retention.PutRetains` | src/movement_store.cpp:392-410 | The same for a put: non-terminal movements all stay, and the live count afterwards is exact. |
| `StoreRuns.OpenWhole` | src/movement_store.cpp:123-317 | Opening a sound store's file gives back exactly its records, order and coordinator state, or is refused because an entry does not decode. |
| `StoreRuns.OpenCut` | src/movement_store.cpp:157-294 | A file cut inside the header is refused (an empty one is a new store); cut at or after byte 96 it opens with exactly the whole records, is truncated to their end, and opens again to the same. |
| `StoreRuns.StepSound` | src/movement_store.cpp:319-602 | From a sound store no healthy operation is refused and each leads to a sound store. |
| `StoreRuns.RunReopens` | src/movement_store.cpp:319-602 | For every sequence of put, retire, save, compact and crash with UTF-8 details and set epochs, opening the file at any point rebuilds exactly what is in memory, with no torn tail. |
| `StoreRuns.UnhealthyRefused` | src/movement_store.cpp:392-410 | Both conditions are needed: an accepted put with non-UTF-8 detail, or a save with epoch zero, makes the next open fail, and nothing else does. |
| `StoreHistory.PutHolds` | src/movement_store.cpp:392-410 | After an accepted put the movement's record is the one put, unless retention retired that movement, which it never does to an open one; every other live movement keeps its record, no open one is lost, a known movement keeps its place, a new one comes last, and coordinator state is unchanged. |
| `StoreHistory.RetireHolds` | src/movement_store.cpp:412-425 | A retirement takes away exactly its movement and keeps the order of the rest. |
| `StoreHistory.ReplayHoldsLatest` | src/movement_store.cpp:319-358 | Replaying any log that can be replayed leaves, for every movement, the record of the log's last entry about it, or none if that entry retires it, and the coordinator state saved last. |
| `StoreHistory.CrashHolds` | src/movement_store.cpp:215-294 | After a crash at any byte the store holds, of every movement and of coordinator state, the last word among the entries wholly before the cut. |
| `StoreHistory.LastPutHeld` | src/movement_store.cpp:319-602 | In every healthy run the record held for a movement is that of an accepted put of it, and any later accepted put of it is followed by a crash; without a crash since, it is that record exactly. |
| `StoreHistory.OpenPutStays` | src/movement_store.cpp:392-502 | In every healthy run an open movement is held exactly as put until it is put again or retired by name or the process crashes. |
| `StoreHistory.HeldIsValid` | src/movement.cpp:163-207 | In every healthy run, crashes and compactions included, every record held stands under its own id, between two different endpoints each bound to its own incarnation, for an object under its derived identity, within its bounds, and with a marker digest if it is COMMITTED. |
| `StoreHistory.LastSaveHeld` | src/movement_store.cpp:595-602 | In every healthy run the coordinator state held is that of a save, and any later accepted save is followed by a crash. |
| `StoreObject.MovementStore.AppendRecord` | src/movement_store.cpp:360-390 | Appends one framed record at the end of the file and advances the 64-bit counter, which wraps, or refuses an oversized payload unchanged. |
| `StoreObject.MovementStore.Put` | src/movement_store.cpp:392-410 | The object's new state is the put step, retention included, with the outcome of validation and size checks; index and log stay in step until the counter has wrapped. What the index holds afterwards is `PutHolds`. |
| `StoreObject.MovementStore.Retire` | src/movement_store.cpp:412-425 | The object's new state is the retire step, in step until the counter has wrapped; a missing movement is reported and nothing changes. |
| `StoreObject.MovementStore.CollectVictims` | src/movement_store.cpp:480-489 | The collecting loop, which stops early, finds exactly the oldest terminal movements to retire. |
| `StoreObject.MovementStore.EnforceRetention` | src/movement_store.cpp:472-502 | The two retention loops together are the retention step, in step until the counter has wrapped. |
| `StoreObject.MovementStore.SaveCoordinatorState` | src/movement_store.cpp:595-602 | The object's new state is the save step, in step until the counter has wrapped. |
| `StoreObject.MovementStore.Compact` | src/movement_store.cpp:504-593 | The rewritten file is the header and the compacted log; index and counter are unchanged. |
| `StoreObject.MovementStore.ApplyRecord` | src/movement_store.cpp:319-358 | Applies one decoded entry to the index, or refuses it; over a whole log the index then holds the last word on every movement (`ReplayHoldsLatest`). |
| `StoreObject.MovementStore.Load` | src/movement_store.cpp:205-294 | The recovery loop over arbitrary bytes computes the recovery function, truncates to the last whole record and sets the counter past it. |
| `StoreObject.MovementStore.Open` | src/movement_store.cpp:123-317 | Opening any bytes at all gives the object the recovery function describes, or nothing exactly when it refuses. |
| `Movement.AcceptedStep` | src/movement.cpp:390-442 | An accepted transition or attempt advances the generation by one and adds exactly one event, numbered next, with a generation above all earlier ones. |
| `Movement.RunSameMovement` | src/movement.cpp:390-442 | What was authorized (object, endpoints, incarnations, topology and policy generations) is the same at any two points of every run. |
| `Movement.ProvenanceTells` | src/movement.cpp:390-442 | Over every run, each provenance event was appended by one step and tells that step's time and decision and the state and generation the record had right after it; no later step rewrites it. |
| `Movement.StateMoves` | src/movement.cpp:16-55 | The state changes only along the table (`LegalIff`: one rank at a time, a negative end from any open state), each change advances the generation, and a terminal record neither moves nor ages. |
| `Movement.RunKeepsHistory` | src/provenance.cpp:164-194 | Over every run the provenance is contiguous from one and never ahead of the record's generation. |
| `Movement.TerminalAbsorbing` | src/movement.cpp:128-138 | Over every run terminal states are absorbing and the generation never decreases. |
| `Movement.AttemptsCounted` | src/movement.cpp:421-442 | Over every run the attempt counter is its first value plus the attempts counted since, modulo 2^32. |
| `Movement.CommittedOnlyWhenVerifiedOrUnknown` | src/movement.cpp:16-55 | Over every run COMMITTED is entered only from VERIFIED or OUTCOME_UNKNOWN and only after AUTHORIZED. |
| `Movement.RefusalLeavesStateIff` | src/movement.cpp:390-419 | An error from `apply_transition` leaves the state alone exactly when the pair was refused as illegal or there was room for its event. |
| `Movement.RefusedYetMoved` | src/movement.cpp:401-418 | With the history full the caller is told of failure although the record has become OUTCOME_UNKNOWN. |
| `Movement.RefusedYetMovedRun` | src/movement.cpp:401-418 | From every fresh record with room for the four transitions to VERIFIED there is a run that ends so. |
| `RecordObject.MovementRecord.AppendEvent` | src/provenance.cpp:164-194 | Appends in place, or refuses unchanged: full, out of sequence, malformed. |
| `RecordObject.MovementRecord.ApplyTransition` | src/movement.cpp:390-419 | The in-place update is the transition the run results are about. |
| `RecordObject.MovementRecord.RecordAttemptStarted` | src/movement.cpp:421-442 | The in-place update is the attempt step the run results are about. |
| `Utf8.AcceptsIffUtf8` | src/bytes.cpp:46-82 | The validator's language is exactly the concatenations of shortest-form encodings of Unicode scalar values (sections 3 and 4 of RFC 3629). |
| `Utf8.EncodingInjective` | src/bytes.cpp:46-82 | Two different sequences of scalar values never have the same encoding. |
| `Utf8.IsValidUtf8` | src/bytes.cpp:46-82 | The loop accepts a byte string if and only if it is such an encoding. |
| `Codec.LERoundTrip` | src/codec.cpp:11-25 | Little-endian words of every width read back to the value written. |
| `Codec.LEDigit` | src/codec.cpp:11-25 | Byte i of a word of any width is the digit of weight 256^i, the least significant first. |
| `Codec.ReadWriteAll` | src/codec.cpp:21-149 | Decoding any encoded field list, followed by anything, returns the values and consumes exactly their bytes. |
| `Codec.WriteReadAll` | src/codec.cpp:44-149 | Whatever the decoder accepts re-encodes to exactly the bytes it consumed: the format is canonical. |
| `Codec.ReadAllRefusesText` | src/codec.cpp:113-120 | A field list with one text that is not UTF-8, or over its own bound or the decoder's, is refused. |
| `Codec.CanonicalEncoder.PutAll` | src/codec.cpp:21-35 | The encoder object appends exactly the specified bytes of a field list. |
| `Codec.CanonicalDecoder.GetAll` | src/codec.cpp:44-139 | The decoder object computes the specified reading, advances by exactly what it consumed, and refuses exactly when the specification does. |
| `Codec.CanonicalDecoder.RequireEnd` | src/codec.cpp:141-149 | Succeeds exactly when the whole input was consumed and was within the limit. |
| `RecordCodec.DescriptorRoundTrip` | src/state_object.cpp:132-199 | A valid descriptor decodes to itself and leaves the tail. |
| `RecordCodec.DescriptorCanonical` | src/state_object.cpp:146-199 | An accepted descriptor is valid and re-encodes to its bytes. |
| `RecordCodec.EventRoundTrip` | src/provenance.cpp:83-162 | A valid event decodes to itself and leaves the tail. |
| `RecordCodec.ChainRoundTrip` | src/provenance.cpp:207-233 | A contiguous chain decodes to itself, up to the bound, which is not encoded. |
| `RecordCodec.ChainCanonical` | src/provenance.cpp:214-233 | An accepted chain is contiguous and re-encodes to its bytes. |
| `RecordCodec.RecordRoundTrip` | src/movement.cpp:209-382 | A valid record with any tail decodes to itself (up to the provenance bound) and consumes exactly its bytes, if and only if its detail text is UTF-8. |
| `RecordCodec.RecordCanonical` | src/movement.cpp:242-382 | Any accepted input re-encodes to exactly the bytes consumed, and what was decoded is valid. |
| `RecordCodec.CoordinatorRoundTrip` | src/movement_store.cpp:66-106 | Coordinator state decodes to itself exactly when its epoch is set. |
| `RecordCodec.CoordinatorCanonical` | src/movement_store.cpp:75-106 | Accepted coordinator state has a set epoch and re-encodes to its bytes. |
| `WireLayout.FieldAt` | src/codec.cpp:21-35 | In an encoded field list every field stands right behind those before it, and its bytes are its own encoding, for every list of fields. |
| `StateObject.CheckedMul` | src/bytes.cpp:99-103 | The division guard refuses exactly the products that overflow 64 bits. |
| `StateObject.ChunkIsPrefixStep` | src/state_object.cpp:111-130 | Every chunk below the count exists without overflow, begins where the previous ones end, and is between one and chunk_bytes long. |
| `StateObject.ChunksTile` | src/state_object.cpp:111-130 | The chunks laid end to end are the object, each in its planned place. |
| `StateObject.ChunkImageInjective` | src/ids.cpp:142-153 | Chunks that differ in object, generation, index, offset or payload are hashed from different bytes, so a chunk digest binds a payload to one slot of one version as far as SHA-256 binds its input. |
| `StateObject.IdImageInjective` | src/ids.cpp:126-140 | Objects that differ in kind or name take their identities from different bytes. |
| `StateObject.CheckPrefix` | src/object_store.cpp:188-209 | The journal's accounting loop accepts a byte count exactly when it is the smaller of verified_chunks * chunk_bytes and total_bytes, and never overflows. |
| `Staging.StepInv` | src/object_store.cpp:742-958 | Every begin, append, finish, abort and crash, inside a begin or a removal included, keeps the staging invariant, and the journal's counters never overflow. |
| `Staging.StagedExactly` | src/object_store.cpp:742-958 | For every interleaving the file never exceeds the object, begins with exactly the accepted chunks in order, and a finish succeeds exactly when every chunk was accepted; it then returns the SHA-256 of a file exactly total_bytes long. |
| `Staging.LeftExactly` | src/object_store.cpp:742-958 | Between writers and after any crash too: the data file left behind never exceeds the object it was started for and begins with exactly the accepted chunks, unless a crash in a promotion or removal emptied it. |
| `Staging.ResumesWhatWasAccepted` | src/object_store.cpp:742-842 | After any crash outside promotion and removal the next begin succeeds, and if it resumes it stands on exactly the chunks accepted before. |
| `Staging.ResumesIff` | src/object_store.cpp:742-775 | In every run, if the process dies while a journalling writer stands, the next begin resumes if and only if resuming is allowed for that many chunks, a chunk was accepted, and the object asked for is the same version with the same contents cut the same way. |
| `Staging.BeginRefusedIff` | src/object_store.cpp:797-825 | In a reachable state the re-hash never fails: a begin is refused exactly when the journal claims progress and the data file is gone. |
| `Staging.OrphanRefused` | src/object_store.cpp:399-430 | A crash between a promotion's rename and its cleanup leaves a journal without data, and every later begin for that version is refused. |
| `Staging.OrphanRun` | src/object_store.cpp:399-430 | For every journalled version there is a run from nothing into that state: all its chunks accepted, finished, and one crash inside the promotion. |
| `Staging.SessionOpensIff` | src/endpoint_agent.cpp:932-1003 | In every run a data session opens if and only if the begin does not resume; a begin that resumes is aborted with the whole staged state as it was, so the next session is refused in the same way. |
| `Staging.ResumeRefusedRun` | src/endpoint_agent.cpp:932-1003 | For every journalled version and every number of accepted chunks, a run with one crash after which no session opens for it. |
| `Staging.DuplicateMatches` | src/object_store.cpp:880-905 | A replayed chunk passes only when the bytes already stored in its slot hash to the digest it carries. |
| `Staging.JudgedAs` | src/object_store.cpp:844-905 | Every verdict on any chunk at all, each as an if and only if over the plan and the stored slots: out of range, wrong offset, length or digest, in turn, out of turn, duplicate, conflict. |
| `Staging.ReplayPasses` | src/object_store.cpp:880-905 | In every reachable state with an open writer, any accepted chunk sent again as it was accepted is judged a duplicate and changes nothing. |
| `StagingObject.StagingWriter.Rehash` | src/object_store.cpp:797-825 | The re-hash loop succeeds exactly when the file covers the journalled prefix and every chunk of it hashes to its journalled digest. |
| `StagingObject.StagingWriter.Begin` | src/object_store.cpp:742-842 | Resumes, starts clean or refuses, exactly as specified, and leaves the disk as specified. |
| `StagingObject.StagingWriter.Append` | src/object_store.cpp:844-939 | Decides as `JudgedAs` says: takes exactly the next chunk, passes exact duplicates, refuses everything else with nothing changed, and journals what it accepted. |
| `StagingObject.StagingWriter.Finish` | src/object_store.cpp:941-958 | Returns the running digest exactly when the whole object is covered. |
| `StagingObject.StagingWriter.Promote` | src/object_store.cpp:960-968 | Places the staged bytes under their version and removes the staging directory, only after a finish. |
| `StagingObject.ObjectStore.WriteCommitMarker` | src/object_store.cpp:496-541 | Writes the first marker of a version, replaces a file that does not decode, repeats an identical seal, refuses any other. |
| `StagingObject.ObjectStore.Authority` | src/object_store.cpp:587-630 | Reports as `ReportIs` says: a marker present exactly when its file is there, readable or not; bytes present exactly when placed; the seal of a readable marker; authoritative exactly when the marker is readable and the placed bytes have its length. |
| `StagingObject.ObjectStore.PromoteStaging` | src/object_store.cpp:399-430 | Replaces the placed bytes by the staged ones, or refuses unchanged when nothing is staged. |
| `StagingObject.ObjectStore.Cleanup` | src/object_store.cpp:632-701 | Removes the staging directory and, only when asked, the placed bytes and the marker, after which the version has no authority. |
| `ObjectStore.StepInv` | src/object_store.cpp:399-430 | Every staging step, promotion, commit, publication and cleanup, cut short anywhere, and damage to a marker file, keeps placed bytes and readable markers on their version's content digest. |
| `ObjectStore.AuthorityIsReal` | src/object_store.cpp:587-630 | With one content digest per version, in every reachable store an authoritative report means the placed bytes hash to the marker's digest and have its length, although only the length is looked at. |
| `ObjectStore.TwoDigests` | src/object_store.cpp:587-630 | Without that assumption it fails: a run from the empty store that publishes two contents of one length under one version ends with an authoritative report over the wrong bytes. |
| `ObjectStore.CommitGrantsIff` | src/object_store.cpp:496-541 | In every run a commit that is not refused leaves its version authoritative under its own seal, if and only if the marker file was not last damaged into one that still shows that seal without reading back, and no marker of another length carries the seal. |
| `ObjectStore.RepeatedWithoutAuthority` | src/object_store.cpp:507-531 | A run in which a commit is told that its marker is already there and the version has no authority. |
| `ObjectStore.MarkerStands` | src/object_store.cpp:496-541 | Over every stretch of every run a readable marker stays unchanged, unless a cleanup that removes placed objects got to it or its file was damaged. |
| `ObjectStore.MarkerStep` | src/object_store.cpp:659-694 | One step changes or removes a readable marker if and only if it is such a cleanup or such damage, and then the version has no authority left. |
| `ObjectStore.PresentUntilRemoved` | src/object_store.cpp:587-630 | Over every stretch of every run: after a commit that is not refused, the version's marker is reported present until a cleanup removes it. |
| `ObjectStore.PromotionPlaces` | src/object_store.cpp:399-430 | A finished promotion places exactly the chunks that were accepted, of the object's length and digest, leaves nothing staged for that movement, and touches no other version, marker or movement. |
| `ObjectStore.CleanedStaysCleaned` | src/object_store.cpp:659-694 | A cleanup takes authority away before it reaches the marker, a crash in between included, and only another promotion or publication of that version brings it back. |
| `DataSession.StagesTheSource` | src/endpoint_agent.cpp:1005-1092 | In any run, with cancellations and connections that break on one side or both, the staged chunks are a prefix of the source's, in order and each once; stored means all of them. |
| `DataSession.StoresTheObject` | src/endpoint_agent.cpp:526-617 | Served from an object's own chunks, what the destination stores is that object byte for byte. |
| `DataSession.ServedMeansStored` | src/endpoint_agent.cpp:600-617 | In any run, faults included, the source takes the object as served only if the destination has stored every chunk of it. |
| `DataSession.CancelledFails` | src/endpoint_agent.cpp:526-543 | In any run a cancelled session stays failed at the source and never stores anything; unless the source's connection breaks too, the destination fails once it has read what was sent. |
| `DataSession.BoundedRun` | src/endpoint_agent.cpp:526-617 | No run without faults goes on for ever: its length is bounded by the number of chunks. |
| `DataSession.CompletesIff` | src/endpoint_agent.cpp:577-617 | For any two windows: every maximal run without faults completes if and only if N/ws = N/wd and (N < ws or wd <= ws); otherwise the source never learns that it has served. |
| `DataSession.MisfitEndsIncomplete` | src/endpoint_agent.cpp:577-617 | With windows that do not fit, every run without faults goes on to a state in which the session can neither move nor has completed. |
| `DataSession.StuckRun` | src/endpoint_agent.cpp:577-617 | The smallest instance: source window two, destination window four, two chunks; both sides wait for ever with every chunk staged. |
| `DataSession.EqualWindows` | src/endpoint_agent.cpp:1064-1092 | With equal windows at most one window is in flight, acknowledgements are on their way exactly when awaited, none is left before the result, nothing fails, and there is no deadlock. |
| `Sha256.CompressBlock` | src/digest.cpp:82-128 | The loops compute the block compression of section 6.2.2 of FIPS 180-4, schedule and rounds given recursively. |
| `Sha256.LoadSchedule` | src/digest.cpp:83-91 | The array loop computes the recursive message schedule. |
| `Sha256.ZeroCountLeast` | src/digest.cpp:164-167 | The padding of section 5.1.1 uses the least number of zero bytes. |
| `Sha256.FoldAppend` | src/digest.cpp:146-149 | Folding the compression over a message can be split at any block boundary. |
| `Sha256.Hasher.Update` | src/digest.cpp:130-156 | However a message is split, the object holds the fold of its whole blocks and buffers the rest. |
| `Sha256.Hasher.PadZeros` | src/digest.cpp:164-167 | The padding loop ends, after exactly the standard's number of zero bytes. |
| `Sha256.Hasher.Finalize` | src/digest.cpp:158-181 | The result is the one-shot hash of the whole message, which `Sha256Standard` and `Sha256Vector` hold against FIPS 180-4, and the object is as new. |
| `Sha256.LengthFieldExact` | src/digest.cpp:159-173 | Below 2^61 bytes the length field is the bit length, as the standard has it. |
| `Sha256.HashPieces` | src/digest.cpp:183-187 | Any split of a message into updates gives the hash of sections 5.1.1, 5.2.1 and 6.2, with the constants and functions that `Sha256Standard` pins down. |
| `Sha256.HmacSha256.Finalize` | src/digest.cpp:210-216 | The streaming result is the HMAC of section 2 of RFC 2104 for the key and all text given. |
| `Sha256.HmacOf` | src/digest.cpp:191-222 | For every key length and every text the object computes section 2 of RFC 2104. |
| `Sha256Standard.InitialWords` | src/digest.cpp:23-25 | Section 5.3.3 of FIPS 180-4 as arithmetic: initial word i is the first 32 fractional bits of the square root of the i-th prime. |
| `Sha256Standard.RoundConstants` | src/digest.cpp:11-21 | Section 4.2.2: round constant i is the first 32 fractional bits of the cube root of the i-th prime. |
| `Sha256Standard.PrimeIs` | src/digest.cpp:11-25 | The numbers used for that are primes. |
| `Sha256Standard.NoneBetween` | src/digest.cpp:11-25 | No prime is left out between one and the next, so they are the first sixty-four. |
| `Sha256Standard.DigestWords` | src/digest.cpp:174-181 | Word i of the final state is read back, big-endian, at byte 4i of the digest. |
| `Sha256Standard.HmacPads` | src/digest.cpp:191-222 | Section 2 of RFC 2104: the two blocks hashed first are the key, shortened by hashing or filled with zeros, with every byte changed by 0x36 and by 0x5C. |
| `Sha256Vector.HashOfAbc` | tests/unit/test_digest.cpp:59-62 | The hash of `abc` is the published digest, derived round by round from the definitions. |
| `Framing.HeaderRoundTrip` | src/framing.cpp:174-235 | Every encoded header decodes to itself with its tag cut to sixteen bytes exactly when version, flags, type, length and sequence are acceptable, and is refused otherwise. |
| `Framing.HeaderCanonical` | src/framing.cpp:186-235 | The parser accepts only byte strings the encoder writes. |
| `Framing.AcceptedOne` | src/framing.cpp:297-339 | Out of any deliveries, invented ones included, the i-th accepted frame was delivered when its number was the next one, has its declared length and the i-th number, and outside the handshake carries the tag that the receiver's key of that moment gives for exactly this header and payload. |
| `Framing.AcceptedIffNext` | src/framing.cpp:260-339 | A frame sent under a key is accepted under that key exactly when it is the next expected; an earlier number is refused as a replay and a later one as skipped. |
| `Framing.NumberedCarries` | src/framing.cpp:260-295 | A built header has the type, length and number asked for and every flag bit but the authentication bit unchanged; that bit is set under a key, and the tag covers the header as it goes out. |
| `Framing.AcceptedPrefixIff` | src/framing.cpp:297-339 | Whatever arrives, with frames dropped, repeated, reordered, altered or invented, as long as tags that verify are only on frames that were sent: the frames accepted are a prefix of those sent if and only if no unsent, well-formed handshake frame arrives with the number expected at that moment (up to the wrap of the counter). |
| `Framing.StrayTakesTheNumber` | src/framing.cpp:306-337 | In a keyed session a stray handshake frame takes the number of the first frame sent, which is then refused as a replay. |
| `Framing.NetworkPrefix` | src/framing.cpp:297-339 | With no assumption on tags, for a network that only drops, repeats and reorders: the frames accepted are a prefix of those sent, in order and each once. |
| `Framing.FrameCodec.Encode` | src/framing.cpp:260-295 | Numbers, flags and tags the frame and advances the counter, which wraps, or refuses unchanged. |
| `Framing.FrameCodec.Verify` | src/framing.cpp:297-339 | Decides as specified and advances the expected number exactly on acceptance. |
| `Framing.FrameCodec.SetSessionKey` | src/framing.cpp:246-251 | Keeps the first 32 bytes of the key, filled up with zeros. |
| `Topology.GenerationCounts` | src/topology.cpp:39-154 | Over every run, coordinator restarts, resets and empty views included: the generation is one at the last restart, or its earlier value when there was none, plus the invalidations since (that restart's own reset, a known endpoint marked dead, a reset, an advance), capped at its last value. |
| `Topology.GenerationMonotone` | src/topology.cpp:39-154 | Within one coordinator process the generation never decreases, resets included, and below its last value every invalidation raises it. |
| `Topology.NeverFallsIff` | src/coordinator.cpp:135-139 | Across restarts, exactly: over a stretch of a run the generation never falls if and only if no restart on it finds a generation above two. |
| `Topology.GenerationReused` | include/smf/topology.hpp:4-7 | A run in which a restart lowers the generation and an earlier one is later shown for another view. |
| `Topology.EpochMonotone` | src/topology.cpp:46-68 | While an endpoint stays registered an older incarnation never displaces a newer one. |
| `Topology.LinksGone` | src/topology.cpp:81-86 | A removed endpoint takes exactly its own links with it. |
| `Topology.FoundAfter` | src/topology.cpp:39-154 | What is found for every endpoint after every operation: the new registration after an accepted put, nothing after a removal, a reset or a restart, the same one no longer live after a mark, and the same as before for all others; and which links are left. |
| `Topology.TopologyView.Find` | src/topology.cpp:100-106 | Lookup through the index equals a linear search. |
| `Topology.TopologyView.PutRegistration` | src/topology.cpp:46-68 | Adds or replaces as specified, refuses an older epoch, and keeps the index a bijection. |
| `Topology.TopologyView.RemoveEndpoint` | src/topology.cpp:70-87 | Closes the gap in vector, index and links and keeps the index a bijection. |
| `Topology.TopologyView.MarkEndpointDead` | src/topology.cpp:89-98 | Clears liveness, advances the generation, keeps the index a bijection. |
| `Topology.TopologyView.ResetDynamicState` | src/topology.cpp:148-154 | Empties the view and advances the generation. |
| `Topology.TopologyView.Start` | src/coordinator.cpp:49-77 | A coordinator process starts from a new view and resets it: whatever generation was saved, it begins at two. |

## Left out

- Which error code wins when several checks fail in a decoder; the model says accept or refuse.
- Message codecs of src/wire.cpp: abstract messages stand for about forty similar field lists.
- Sessions, grant signatures and handshakes (src/session.cpp): authentication, not part of this model.
- Threads, locks, promises and timeouts: atomic steps with nondeterministic failure.
- Partial writes after an I/O error that does not stop the process, and power-loss ordering between files.
- What a wrapped counter does: after 2^64 log records or frames the source starts again from zero; the objects do the same, and the results about runs and prefixes stop there.
- ProtocolRuns.CancelStep: for a record nobody owns, because a cancellation that races a running worker has no fencing on `put` and the two overwrite each other.
- ProtocolTheorems.RecoveryComplete: about movements the recovery listed, because the source lists at most max_history_records.
- Movement.RunSameMovement: does not speak of the cancel flag and the commit marker digest, because the coordinator assigns them outside these operations.
- RecordCodec.RecordRoundTrip: up to the provenance bound, which the encoding does not carry.
- Constant-time comparison, hexadecimal text and the verification sample of src/chunk_plan.cpp: only easy properties.
- Store statistics and `put_link`: bookkeeping with only easy properties.
- Sockets, file handles and locks: a file is its bytes with atomic replacement, a connection a FIFO channel.
- Compatibility, policy, logging, time, fault injection, applications and CUDA publication.
- Local publication is one step that places bytes and a marker; its file import is not modelled.

# Verified model of the Aurelia peering transport

Aurelia lets processes ("domus") exchange messages and byte streams ("blobs") over one or more
connections ("callis") per peer. Its delivery guarantees rest on a few structures, each guarded by a
lock. This project models those structures in Dafny, each locked method body as one atomic step, and
proves what they promise.

| files | what they model |
|---|---|
| `RetainedTypes`, `RetainedSpec`, `RetainedRuns`, `RetainedLife` | the retained outbound store as an abstract transition system, what holds over all its runs, and the life of an item told from the operations alone |
| `RetainedLane`, `RetainedInvariant`, `RetainedRefinement`, `RetainedStore` | the store as it is: slot vectors, free lists, lazily invalidated queues, a lazy deadline heap, two id indexes; every method is a step of the abstract system |
| `BlobSender`, `BlobChunks`, `BlobOutbound` | the sending end of a blob stream: what it does, its slot ring, its life cycle |
| `BlobInbound`, `BlobTransfer`, `BlobReading` | the receiving ring; sender, receiver, reader and an unreliable network as one system; what the reader is told |
| `BlobHistory`, `BlobProgress` | the life of a chunk and of a stream told from the actions alone; that a transfer which has not failed can always be completed |
| `BlobDispatch`, `BlobFairness` | whose turn it is to send a chunk, when several transmitters share one cursor |
| `BlobReservations` | the accounting of buffer memory |
| `SessionDedupe` | suppression of duplicate inbound messages |
| `Wire`, `Frames`, `ErrorPayloads`, `AuthCodec`, `AuthMessages`, `Layouts` | encoders and parsers, the resumable frame reader, error texts, the socket authentication messages, and where each field is in the bytes |
| `FeatureExpansion` | replacement of internal feature edges in the published manifest |

How the pieces fit. The store, the outbound ring, the outbound stream, the receiving ring, the chunk
dispatcher, the tracker, the reservation tables, the dedupe state, the frame reader and the byte cursor
are classes. Their methods are proved to be steps of, or to compute, value-level definitions; the
theorems about runs are about those definitions. Several of them say what the system does without
naming its steps: from the operations of a run alone they tell which item is claimed next, when a chunk
is written again, what a writer, a reader or a waiting duplicate is told. Ghost fields (`created`,
`live`, `accepted`, `used`, `entries`, `workers`) record history and are tied to the real fields by the
invariants.

Conventions. Time is an integer parameter `now`. A completion channel or a waiter is a unique number.
Sequence numbers, chunk ids and admission numbers are unbounded. Message ids given to chunk leases have
not been used before in the transfer, and a chunk may reach the peer from the moment it is leased, any
number of times or never. Paths in authentication messages are opaque byte strings, and the
platform's maximum path length is taken as 4096.

Where code and documentation disagree the model follows the code.

- `docs/peering/backpressure-queues.md` says that a bare ACK returns to Ready when its callis goes away.
  `mark_callis_replay_ready` does not visit that lane (`RetainedRuns.CallisLossTakesBackLeases`,
  `RetainedRuns.AckLeaseSurvivesItsConnection`).
- A reader is meant to see the end of a blob after its last byte, and a failure as a failure. A reader
  that finds no ring between its looks can be told of the end instead: when the ring was taken away with
  bytes left unread (`BlobReading.EndMayBeEarly`), when the stream has failed
  (`BlobReading.FailureMayLookLikeTheEnd`), or when the ring had not been made yet, since a receiver is
  accepted before its ring exists (`BlobReading.EndMayOvertakeTheRing`). `BlobReading.WholeBlobReadIff`
  says exactly when a reported end is true.
- `docs/peering/transport-model.md` promises stream fairness across all blob streams, from one cursor
  shared by all transmitters. A transmitter looks at the cursor and moves it later, under a second lock,
  so several transmitters can undo each other's moves. A stream is never starved
  (`BlobFairness.NoStarvation`), but the wait is binomial in the numbers of transmitters and streams, and
  that is exact (`BlobFairness.NoStarvationFromRest`, `BlobFairness.BoundIsMet`). One round over the
  streams suffices if and only if there is one transmitter or one stream
  (`BlobFairness.AsManyAsStreamsIff`), or when the transmitters happen not to overlap
  (`BlobFairness.OneAtATimeBound`).
- Reservations are meant to balance. They do if and only if no row with bytes in it is overwritten and no
  task is dropped with bytes in hand (`BlobReservations.BalancedIff`). Both can happen. The accept path in
  `src/crates/peering/src/transport/callis.rs`, lines 848 to 862, gives up a request without releasing
  its row when the blob dial cannot be signalled or no settings are known, so a repeated request is new
  again and overwrites it (`BlobReservations.ReusedIdLeaks`). `reserve_outbound` in
  `src/crates/peering/src/transport/blob/mod.rs`, lines 129 to 141, raises the counter and then waits for
  a lock before it stores the row, and the guard that would give the bytes back is made only after it has
  returned, so dropping the send in between loses them (`BlobReservations.DroppedTaskLeaks`).

## Model

| member | source | states |
|---|---|---|
| `RetainedRuns.CompletionConservation` | src/crates/peering/src/transport/primary_dispatch/store.rs:473-748 | Over every run, for every message id and completion channel: the times it was admitted equal the times it was answered plus whether it is live now. No mix of claim, failed write, replay, expiry, ack, capacity change and shutdown loses or repeats an answer. |
| `RetainedRuns.AnsweredExactlyOnce` | src/crates/peering/src/transport/primary_dispatch/store.rs:607-748 | A message admitted once is answered exactly once if it has left the store, and not at all while it is in it. |
| `RetainedRuns.StepConserves` | src/crates/peering/src/transport/primary_dispatch/store.rs:876-992 | The same balance for each single operation. |
| `RetainedRuns.RunKeepsInv` | src/crates/peering/src/transport/primary_dispatch/store.rs:401-520 | In every reachable store, live entries sit in distinct slots, ids are unique per index, items are in the lane of their kind, and fresh entries keep admission order. |
| `RetainedRuns.AdmissionFits` | src/crates/peering/src/transport/primary_dispatch/store.rs:444-520 | An operation that admits an item leaves its lane within its target capacity. |
| `RetainedRuns.LanesStayWithinTarget` | src/crates/peering/src/transport/primary_dispatch/store.rs:401-520 | In every run, as long as capacities are left alone, no lane ever holds more than its target. |
| `RetainedRuns.GrowthFits` | src/crates/peering/src/transport/primary_dispatch/store.rs:401-520 | A lane that grows in a step, also after its target was lowered, ends within its target. |
| `RetainedRuns.ItemNeverChanges` | src/crates/peering/src/transport/primary_dispatch/store.rs:259-276 | An admission number names one item, in one slot with one deadline, for ever: keys and claims made for it can never reach another item. |
| `RetainedRuns.StaleLeaseIsHarmless` | src/crates/peering/src/transport/primary_dispatch/store.rs:607-682 | Completing a claim acts on the very item the claim was made for, or changes nothing. |
| `RetainedRuns.FirstSendsAreFifo` | src/crates/peering/src/transport/primary_dispatch/store.rs:226-257 | Over the whole run, first sends of one tracked lane follow admission order. |
| `RetainedRuns.ShutdownDrains` | src/crates/peering/src/transport/primary_dispatch/store.rs:923-967 | After shutdown began no tracked item exists or can be claimed, nothing is added, and "response lanes empty" equals "store empty". |
| `RetainedRuns.ShutdownOnlyShrinks` | src/crates/peering/src/transport/primary_dispatch/store.rs:923-967 | Between any two later moments the set of retained items only shrinks. |
| `RetainedRuns.CallisLossTakesBackLeases` | src/crates/peering/src/transport/primary_dispatch/store.rs:750-791 | After a connection is lost an entry is still leased to it if and only if it was leased to it and is a bare acknowledgement. |
| `RetainedRuns.AckLeaseSurvivesItsConnection` | src/crates/peering/src/transport/primary_dispatch/store.rs:750-752 | The rule that no lease survives its connection is false: a run from a new store in which an acknowledgement is admitted, claimed and, its connection lost, still leased to it. |
| `RetainedLife.ClaimCarriesItem` | src/crates/peering/src/transport/primary_dispatch/store.rs:1013-1027 | Over every run: what a claim hands to a connection is what was admitted under that number, an acknowledgement as one, an error response as its frame, a message as itself, with the identity and the deadline of that admission. |
| `RetainedLife.AdmissionOf` | src/crates/peering/src/transport/primary_dispatch/store.rs:444-520 | Whatever is retained was put in by exactly one earlier operation, in the lane of its class: types from 0x10000 to 0xFFFFFF in A2, higher ones in A3. |
| `RetainedLife.StateFromHistory` | src/crates/peering/src/transport/primary_dispatch/store.rs:607-836 | The state of a claimed item follows from the operations since its last claim: waiting if it was sent back, in flight if it was reported written, and else being written. |
| `RetainedLife.WaitingIff` | src/crates/peering/src/transport/primary_dispatch/store.rs:607-836 | An item waits if and only if it was never handed out, or its last write failed or was taken back by the loss of its connection or a demand to send it again. |
| `RetainedLife.SentAgainForAReason` | src/crates/peering/src/transport/primary_dispatch/store.rs:607-836 | Between two claims of one item lies a failed write of the earlier one, the loss of its connection, or a demand to send it again. |
| `RetainedLife.FailedWriteWaits` | src/crates/peering/src/transport/primary_dispatch/store.rs:633-638 | After a failed write the item waits, and may be claimed unless the store is shut down. |
| `RetainedLife.WrittenIsNotSentAgain` | src/crates/peering/src/transport/primary_dispatch/store.rs:646-651 | After a successful write a message is not claimed again until something takes it back. |
| `RetainedLife.NextIsFirst` | src/crates/peering/src/transport/primary_dispatch/store.rs:522-605 | Told from the operations: a claim finds nothing if and only if nothing waits that may go; else it takes the best class, of messages those to be sent again, then the oldest. |
| `RetainedLife.LinesAreFifo` | src/crates/peering/src/transport/primary_dispatch/store.rs:563-605 | An item admitted or returned to a lane while another is ready there is not claimed before the other. |
| `RetainedLife.ReturnedInSlotOrder` | src/crates/peering/src/transport/primary_dispatch/store.rs:750-791 | Error responses returned together by the loss of a connection are claimed in the order of their slots. |
| `RetainedLife.LeavesIff` | src/crates/peering/src/transport/primary_dispatch/store.rs:607-992 | An item leaves if and only if it is acknowledged, failed, expired or dropped, or is a response whose write succeeded. |
| `RetainedLife.AnswersIff` | src/crates/peering/src/transport/primary_dispatch/store.rs:684-942 | A sender is told if and only if its message is taken out, and is told delivered for an acknowledgement, the error given for a failure or shutdown, and a timeout for an expiry. |
| `RetainedLife.MessageAdmission` | src/crates/peering/src/transport/primary_dispatch/store.rs:473-502 | The outcome of every attempt to admit a message, from the operations before it: the first refusal that applies, with the capacities last set, or admission. |
| `RetainedLife.ResponseAdmission` | src/crates/peering/src/transport/primary_dispatch/store.rs:444-471 | The same for acknowledgements and error responses. |
| `RetainedLife.NumbersCount` | src/crates/peering/src/transport/primary_dispatch/store.rs:444-502 | Admission numbers count admissions and the responses refused for a full lane. |
| `RetainedStores.NewLane` | src/crates/peering/src/transport/primary_dispatch/store.rs:191-209 | A new lane: as many empty slots as its target (at least one), all of them on the free list. |
| `RetainedStores.SetTargetCapacity` | src/crates/peering/src/transport/primary_dispatch/store.rs:211-220 | The lane grows to the new target and never shrinks; the added slots are free. |
| `RetainedStores.AllocateSlot` | src/crates/peering/src/transport/primary_dispatch/store.rs:222-257 | A free slot is found if and only if the lane is below its target; nothing else of the lane changes. |
| `RetainedStores.RemoveSlot` | src/crates/peering/src/transport/primary_dispatch/store.rs:259-267 | An occupied slot is emptied and becomes free; an empty or unknown one changes nothing. |
| `RetainedStores.RetainedStore.constructor` | src/crates/peering/src/transport/primary_dispatch/store.rs:387-399 | The new store satisfies the structural invariant and is the empty abstract store. |
| `RetainedStores.RetainedStore.SetCapacities` | src/crates/peering/src/transport/primary_dispatch/store.rs:401-406 | Only the targets change, each to at least one. |
| `RetainedStores.RetainedStore.SetShutdown` | src/crates/peering/src/transport/primary_dispatch/store.rs:408-410 | Only the shutdown flag changes. |
| `RetainedStores.RetainedStore.InsertResponse` | src/crates/peering/src/transport/primary_dispatch/store.rs:444-471 | Refused for shutdown, expiry, duplicate id and full lane in this order; else admitted to a slot nobody holds. A refusal for a full lane still uses up a number. |
| `RetainedStores.RetainedStore.InsertAck` | src/crates/peering/src/transport/primary_dispatch/store.rs:412-424 | The same for a bare acknowledgement, as a step of the abstract store, keeping the structural invariant. |
| `RetainedStores.RetainedStore.InsertError` | src/crates/peering/src/transport/primary_dispatch/store.rs:426-442 | The same for an error response. |
| `RetainedStores.RetainedStore.InsertTracked` | src/crates/peering/src/transport/primary_dispatch/store.rs:473-502 | Five refusals in the order of the code, or admission to the lane of the message type; the branch the code marks unreachable is proved unreachable. |
| `RetainedStores.RetainedStore.ClaimFromQueue` | src/crates/peering/src/transport/primary_dispatch/store.rs:563-605 | However many stale keys are in front, a queue yields nothing if and only if nobody waits in it. The first key that is still live is taken and the keys behind it keep their order, in the replay queue as in the fresh one. |
| `RetainedRefinement.NoReplayOvertakes` | src/crates/peering/src/transport/primary_dispatch/store.rs:563-605 | Over every run of the store: while an entry waits to be sent again and its first key is in front of all keys of another, the other is not sent again before it, whatever is admitted, marked, completed, expired, removed or resized in between. |
| `RetainedStores.RetainedStore.ClaimLane` | src/crates/peering/src/transport/primary_dispatch/store.rs:551-561 | Nothing if and only if nothing is dispatchable in the lane; replay before fresh. |
| `RetainedStores.RetainedStore.ClaimNext` | src/crates/peering/src/transport/primary_dispatch/store.rs:522-534 | Work-conserving: nothing is claimed if and only if nothing is dispatchable; a claim precedes all other dispatchable entries by lane, then replay, then age. In every lane the replay queue is left alone, emptied of keys that are all stale, or loses its keys up to the first live one, which is the one claimed. |
| `RetainedStores.RetainedStore.HasDispatchableWork` | src/crates/peering/src/transport/primary_dispatch/store.rs:536-549 | True if and only if some entry is dispatchable, which is when `ClaimNext` claims. |
| `RetainedStores.RetainedStore.CompleteWrite` | src/crates/peering/src/transport/primary_dispatch/store.rs:607-682 | A stale claim changes nothing; otherwise tracked items go in flight or to the end of the replay queue and responses leave or requeue at the end. |
| `RetainedStores.RetainedStore.RemoveBySlot` | src/crates/peering/src/transport/primary_dispatch/store.rs:981-992 | Removes the item of a slot together with its index entry and nothing else. |
| `RetainedStores.RetainedStore.Ack` | src/crates/peering/src/transport/primary_dispatch/store.rs:684-695 | Removes exactly the tracked entry with that id, answering it as delivered. |
| `RetainedStores.RetainedStore.FailOne` | src/crates/peering/src/transport/primary_dispatch/store.rs:697-712 | Removes exactly the tracked entry with that id, answering it with the error. |
| `RetainedStores.RetainedStore.FailAll` | src/crates/peering/src/transport/primary_dispatch/store.rs:714-727 | Removes and answers every tracked entry once. |
| `RetainedStores.RetainedStore.FailNonA1` | src/crates/peering/src/transport/primary_dispatch/store.rs:729-748 | Equals failing all tracked entries, because no tracked entry is ever in an A1 lane. |
| `RetainedStores.RetainedStore.MarkCallisReplayReady` | src/crates/peering/src/transport/primary_dispatch/store.rs:750-791 | Tracked leases on the connection become replayable, error responses requeue in slot order, acknowledgements and all others stay. New replay keys go behind the old ones, so nobody loses its place. |
| `RetainedStores.RetainedStore.SweepLane` | src/crates/peering/src/transport/primary_dispatch/store.rs:752-790 | One lane of the same; its new replay keys are in slot order. |
| `RetainedStores.RetainedStore.MarkAllTrackedReplayReady` | src/crates/peering/src/transport/primary_dispatch/store.rs:793-796 | Every tracked entry being written or in flight becomes replayable; nothing else changes, and an entry marked twice keeps its first place. |
| `RetainedStores.RetainedStore.MarkTrackedReplayReady` | src/crates/peering/src/transport/primary_dispatch/store.rs:798-836 | The same for the tracked entries with the given ids. |
| `RetainedStores.RetainedStore.ExpireDue` | src/crates/peering/src/transport/primary_dispatch/store.rs:876-904 | The lazy heap agrees with a scan: exactly the live entries due by `now` are removed, and exactly the tracked ones answered, with SendTimeout. |
| `RetainedStores.RetainedStore.NextDeadline` | src/crates/peering/src/transport/primary_dispatch/store.rs:906-921 | The minimum deadline over live entries; none if and only if the store is empty. |
| `RetainedStores.RetainedStore.BeginShutdown` | src/crates/peering/src/transport/primary_dispatch/store.rs:923-942 | Sets the flag, removes and answers every tracked entry once, keeps responses. |
| `RetainedStores.RetainedStore.DropResponses` | src/crates/peering/src/transport/primary_dispatch/store.rs:944-949 | Removes exactly the responses. |
| `RetainedStores.RetainedStore.IsEmpty` | src/crates/peering/src/transport/primary_dispatch/store.rs:955-967 | True if and only if no entry is live. |
| `RetainedStores.RetainedStore.ResponseLanesEmpty` | src/crates/peering/src/transport/primary_dispatch/store.rs:951-953 | True if and only if no response is retained. |
| `RetainedLanes.RoomMeansFree` | src/crates/peering/src/transport/primary_dispatch/store.rs:222-224 | A lane below its target has a free slot. |
| `RetainedInvariant.LiveIsLaneCount` | src/crates/peering/src/transport/primary_dispatch/store.rs:226-267 | The live counter of a lane is the number of its live entries. |
| `RetainedRefinement.StaleKeyPops` | src/crates/peering/src/transport/primary_dispatch/store.rs:563-605 | Dropping a stale queue key changes no entry and keeps the invariant. |
| `RetainedRefinement.LiveKeyTaken` | src/crates/peering/src/transport/primary_dispatch/store.rs:563-605 | A key that matches its slot names the live entry it was made for, and taking it is a claim of that entry. |
| `RetainedRefinement.LeaseFitsIffCurrent` | src/crates/peering/src/transport/primary_dispatch/store.rs:607-640 | The slot-level test of a lease succeeds if and only if the item it was made for is still being written on its connection. |
| `RetainedRefinement.HeadIsEarliest` | src/crates/peering/src/transport/primary_dispatch/store.rs:906-921 | A heap head that is not stale carries the minimum deadline of all live entries. |
| `RetainedInvariant.HeapPush` | src/crates/peering/src/transport/primary_dispatch/store.rs:135-143 | Pushing keeps the heap ordered by deadline, then lane, then index, then number, and adds exactly one key. |
| `BlobTransfer.DeliversPrefix` | src/crates/peering/src/ring_buffer/inbound.rs:52-153 | In every run over a network that loses, repeats and reorders frames: the bytes read are a prefix of the bytes accepted, and all of them once the receiving ring says it is complete. |
| `BlobTransfer.HonestCompletion` | src/crates/peering/src/ring_buffer/outbound.rs:212-224 | The sender is told of success only when every chunk was acknowledged and the receiver has stored, without a gap, every byte accepted. |
| `BlobTransfer.NoChunkLost` | src/crates/peering/src/ring_buffer/outbound/chunks.rs:227-354 | Unless the stream failed, every chunk ever cut is live in the ring, or acknowledged and stored by the receiver. |
| `BlobTransfer.OneFinalChunk` | src/crates/peering/src/ring_buffer/outbound/chunks.rs:179-214 | A final chunk is the one with the highest id, there is never a second, it ends the accepted bytes, and no byte is accepted after it. |
| `BlobTransfer.SupersededAckHarmless` | src/crates/peering/src/ring_buffer/outbound/chunks.rs:325-354 | An acknowledgement of an attempt that is no longer awaited changes nothing at the sender. |
| `BlobTransfer.RunKeeps` | src/crates/peering/src/transport/blob/receive.rs:154-271 | The invariant that ties both rings, the frames ever written and the answers ever sent, in every reachable state. |
| `BlobProgress.CanComplete` | src/crates/peering/src/ring_buffer/outbound.rs:80-224 | From every reachable state in which the stream has neither failed nor been closed and the receiver has its ring and takes chunks of that size, the run can be continued, without any more being written or anything failing, until the sender is told of success, every accepted byte is read, and the reader is told of the end. |
| `BlobProgress.CanFinishChunks` | src/crates/peering/src/ring_buffer/outbound/chunks.rs:216-354 | Every chunk that awaits its answer, whatever became of its connections, can be written, stored and acknowledged. |
| `BlobProgress.CanSeal` | src/crates/peering/src/ring_buffer/outbound.rs:106-136 | The final chunk can always be made and answered, whatever the window. |
| `BlobProgress.CanReadOn` | src/crates/peering/src/transport/blob/io.rs:35-65 | Whatever look the reader is at, it can take every chunk up to the first missing one. |
| `BlobReading.WholeBlobReadIff` | src/crates/peering/src/transport/blob/io.rs:35-65 | In every reachable state the whole blob has been read if and only if the receiver expects no more chunks and holds no bytes, or the closed blob is empty. |
| `BlobReading.EndOfBlobTold` | src/crates/peering/src/transport/blob/io.rs:35-65 | The end is reported to a reader that had the ring only after everything was read; to one that found neither ring nor failure as soon as the completion flag is set, by a complete blob or by a failure. |
| `BlobReading.ReaderIsTold` | src/crates/peering/src/transport/blob/io.rs:35-65 | A look hands out the bytes by which the delivered bytes grow, and a failure as it was recorded. |
| `BlobReading.EndMayBeEarly` | src/crates/peering/src/transport/blob/mod.rs:1043-1068 | A run in which a stored, unread ring expires and the reader, looking before the failure is recorded, is told of the end with a byte unread. |
| `BlobReading.FailureMayLookLikeTheEnd` | src/crates/peering/src/transport/blob/mod.rs:37-46 | A run in which nothing arrived, the stream fails, and the reader, having seen no failure twice, takes the flag the failure sets for the end. |
| `BlobReading.EndMayOvertakeTheRing` | src/crates/peering/src/transport/callis.rs:816-827 | A run without any failure: the reader looks for a ring between the acceptance and the making of it, the whole blob then arrives and sets the completion flag, and the reader is told of the end with the blob unread in the ring. |
| `BlobSender.FinalizeSeals` | src/crates/peering/src/ring_buffer/outbound/chunks.rs:179-214 | Closing an open stream makes exactly one final chunk, the last, and keeps the byte stream, even for an empty stream. |
| `BlobSender.OutboundBytesBounded` | src/crates/peering/src/ring_buffer/outbound/chunks.rs:125-177 | The sender buffers at most (window + 1) * chunk size bytes. |
| `BlobSender.PushTakesAll` | src/crates/peering/src/ring_buffer/outbound/chunks.rs:125-173 | A push takes exactly the smaller of what it is given and (window - live chunks + 1) * chunk size less what is held back. |
| `BlobHistory.StateFromHistory` | src/crates/peering/src/ring_buffer/outbound/chunks.rs:227-354 | Over every run, the state of a chunk follows from the actions since its last lease: to be written again if its connection was lost, in flight if reported written, else being written. |
| `BlobHistory.OfferedIff` | src/crates/peering/src/ring_buffer/outbound/chunks.rs:271-323 | A chunk is offered if and only if it was never leased or the connection of its last lease was lost. |
| `BlobHistory.LossTakesBack` | src/crates/peering/src/ring_buffer/outbound/chunks.rs:271-323 | After the loss of a connection exactly the chunks it was writing or had in flight are offered again; all others are unchanged. |
| `BlobHistory.NextIsLowest` | src/crates/peering/src/ring_buffer/outbound/chunks.rs:216-225 | A lease is refused if and only if nothing is offered; else it is the lowest chunk to be written again, if there is one, and otherwise the lowest new one, with the bytes it was cut with. |
| `BlobHistory.AgainBeforeNew` | src/crates/peering/src/ring_buffer/outbound/chunks.rs:216-225 | Between the loss of a connection and the first lease of any new chunk every chunk it held is leased again. |
| `BlobHistory.AgainOnlyAfterLoss` | src/crates/peering/src/ring_buffer/outbound/chunks.rs:216-323 | Between two leases of one chunk the connection of the earlier one was lost. |
| `BlobHistory.LeasesAreNumbered` | src/crates/peering/src/ring_buffer/outbound/chunks.rs:419-474 | The leases of a chunk are numbered from one on. |
| `BlobHistory.DoneIff` | src/crates/peering/src/ring_buffer/outbound/chunks.rs:325-354 | A chunk leaves the ring if and only if the answer to its last lease comes after it was reported written and before its connection is lost. |
| `BlobHistory.LifeFromHistory` | src/crates/peering/src/ring_buffer/outbound/state.rs:15-105 | The life of the stream follows from the refusals, failures, closings and confirmations it has seen: a refusal overrides an earlier failure, nothing else does. |
| `BlobHistory.WriterIsTold` | src/crates/peering/src/ring_buffer/outbound.rs:80-104 | What every push returns, from the actions before it: the failure, that the stream is ended, that another is at the ring, or exactly how many bytes were taken. |
| `BlobHistory.CloserIsTold` | src/crates/peering/src/ring_buffer/outbound.rs:106-136 | What every attempt to seal returns: the failure, that the stream is closed, or whether the final chunk exists, which is denied only for want of slots. |
| `BlobHistory.WaiterIsTold` | src/crates/peering/src/ring_buffer/outbound.rs:212-224 | The verdict on the transfer: the failure, or success if and only if the receiver confirmed last and nothing is left unanswered. |
| `BlobHistory.RefusedForItsReason` | src/crates/peering/src/transport/blob/receive.rs:154-271 | Every refusal answers a frame that was sent, and the condition its error names holds of that frame. |
| `BlobChunks.HeldIsLive` | src/crates/peering/src/ring_buffer/outbound/chunks.rs:373-378 | Occupied slots are as many as chunks awaiting an answer. |
| `BlobChunks.OutboundChunks.constructor` | src/crates/peering/src/ring_buffer/outbound/chunks.rs:71-85 | An empty ring that satisfies the ring invariant. |
| `BlobChunks.OutboundChunks.LiveChunkCount` | src/crates/peering/src/ring_buffer/outbound/chunks.rs:373-378 | The slot scan counts exactly the live chunks. |
| `BlobChunks.OutboundChunks.HasWindowCapacityFor` | src/crates/peering/src/ring_buffer/outbound/chunks.rs:405-407 | Exact: live chunks, the pending one and the request fit the window. |
| `BlobChunks.OutboundChunks.NextEmptySlot` | src/crates/peering/src/ring_buffer/outbound/chunks.rs:409-417 | Searching round from the cursor finds an empty slot if and only if the window is not full. |
| `BlobChunks.OutboundChunks.EnqueueChunk` | src/crates/peering/src/ring_buffer/outbound/chunks.rs:388-403 | The chunk gets the next id and a slot; the silent return happens only with a full window, which no caller meets. |
| `BlobChunks.OutboundChunks.PushAvailable` | src/crates/peering/src/ring_buffer/outbound/chunks.rs:125-173 | The bytes taken follow those taken before, only full non-final chunks are cut, and no more could have been taken. |
| `BlobChunks.OutboundChunks.CanAccept` | src/crates/peering/src/ring_buffer/outbound/chunks.rs:175-177 | True if and only if the buffer or the window has room. |
| `BlobChunks.OutboundChunks.Finalize` | src/crates/peering/src/ring_buffer/outbound/chunks.rs:179-214 | Refused without change if and only if the slots for the rest are missing; else the stream is sealed. |
| `BlobChunks.OutboundChunks.LeaseMatching` | src/crates/peering/src/ring_buffer/outbound/chunks.rs:419-474 | The lowest chunk id offered, with its data and the next slot number; nothing if and only if nothing is offered. |
| `BlobChunks.OutboundChunks.LeaseNextChunkForWrite` | src/crates/peering/src/ring_buffer/outbound/chunks.rs:216-225 | Chunks to be sent again before new ones. |
| `BlobChunks.OutboundChunks.MarkInflight` | src/crates/peering/src/ring_buffer/outbound/chunks.rs:227-269 | Acts if and only if the lease is the latest of its chunk; the message map and the counter stay exact. |
| `BlobChunks.OutboundChunks.MarkCallisReplayReady` | src/crates/peering/src/ring_buffer/outbound/chunks.rs:271-323 | Exactly the chunks leased to the lost connection are offered again. |
| `BlobChunks.OutboundChunks.NoteCompletion` | src/crates/peering/src/ring_buffer/outbound/chunks.rs:325-354 | Removes exactly the chunk awaiting that message id, and reports whether there was one. |
| `BlobChunks.OutboundChunks.HasOffered` | src/crates/peering/src/ring_buffer/outbound/chunks.rs:356-366 | True if and only if some chunk is offered in that way. |
| `BlobChunks.OutboundChunks.CheckDrained` | src/crates/peering/src/ring_buffer/outbound/chunks.rs:384-386 | True if and only if no chunk is live and none is pending. |
| `BlobOutbound.OutboundRingBuffer.constructor` | src/crates/peering/src/ring_buffer/outbound/state.rs:15-21 | An open stream with an empty ring. |
| `BlobOutbound.OutboundRingBuffer.TryPushAvailable` | src/crates/peering/src/ring_buffer/outbound.rs:80-104 | Bytes are taken only while the stream is open; an attempt that takes none reports a full ring, and one that finds the lock taken reports that and changes nothing. |
| `BlobOutbound.OutboundRingBuffer.TrySeal` | src/crates/peering/src/ring_buffer/outbound.rs:106-136 | One round of the sealing loop: error, already sealed, wait, or sealed now. |
| `BlobOutbound.OutboundRingBuffer.LeaseNextChunkForWrite` | src/crates/peering/src/ring_buffer/outbound.rs:138-150 | No lease from a failed or closed stream; else that of the ring. |
| `BlobOutbound.OutboundRingBuffer.MarkChunkInflight` | src/crates/peering/src/ring_buffer/outbound.rs:152-155 | The ring step, lifecycle unchanged. |
| `BlobOutbound.OutboundRingBuffer.MarkCallisReplayReady` | src/crates/peering/src/ring_buffer/outbound.rs:157-164 | The ring step, lifecycle unchanged. |
| `BlobOutbound.OutboundRingBuffer.HasDispatchable` | src/crates/peering/src/ring_buffer/outbound.rs:166-174 | True if and only if the stream may drain and a chunk is offered. |
| `BlobOutbound.OutboundRingBuffer.NoteAck` | src/crates/peering/src/ring_buffer/outbound.rs:189-191 | Exactly the awaited chunk leaves the ring. |
| `BlobOutbound.OutboundRingBuffer.NoteError` | src/crates/peering/src/ring_buffer/outbound.rs:193-196 | The chunk leaves and the stream fails, even over an earlier failure. |
| `BlobOutbound.OutboundRingBuffer.Fail` | src/crates/peering/src/ring_buffer/outbound.rs:198-203 | The first failure stands. |
| `BlobOutbound.OutboundRingBuffer.MarkComplete` | src/crates/peering/src/ring_buffer/outbound/state.rs:71-75 | Completion does not undo a failure. |
| `BlobOutbound.OutboundRingBuffer.Close` | src/crates/peering/src/ring_buffer/outbound/state.rs:87-91 | Closing does not undo a failure. |
| `BlobOutbound.OutboundRingBuffer.CheckComplete` | src/crates/peering/src/ring_buffer/outbound.rs:212-224 | Success if and only if the stream is completed and the ring drained; a failure is reported as such. |
| `BlobOutbound.NewOutboundRing` | src/crates/peering/src/ring_buffer/outbound.rs:39-47 | A zero chunk size or window is refused, and nothing else. |
| `BlobInbound.InboundRingBuffer.constructor` | src/crates/peering/src/ring_buffer/inbound.rs:39-49 | An empty receiving ring. |
| `BlobInbound.InboundRingBuffer.InsertChunk` | src/crates/peering/src/ring_buffer/inbound.rs:52-132 | Each error exactly under its condition and in the order of the code; duplicates change nothing; a chunk that leaves a full ring stuck is kept though refused; `complete` if and only if all ids up to the last are in. |
| `BlobInbound.InboundRingBuffer.TakeNext` | src/crates/peering/src/ring_buffer/inbound.rs:134-145 | Hands out the chunk at the reader's position, or nothing. |
| `BlobInbound.NewInboundRing` | src/crates/peering/src/ring_buffer/inbound.rs:35-49 | A zero chunk size or window is refused, and nothing else. |
| `BlobInbound.FirstMissingFrom` | src/crates/peering/src/ring_buffer/inbound.rs:100-104 | The advance loop stops at the first id not held. |
| `BlobInbound.InOrderInsertion` | src/crates/peering/src/ring_buffer/inbound.rs:52-132 | In-order arrival of a legal chunk fails only with BlobBufferFull, and exactly when a full window is unread. |
| `BlobInbound.GapsAreAllowed` | src/crates/peering/src/ring_buffer/inbound.rs:52-132 | A new legal chunk inside the window is stored whatever is missing before it, if a place is left after it. |
| `BlobInbound.MissingChunkFits` | src/crates/peering/src/ring_buffer/inbound.rs:52-132 | Once all that can be read was read, the chunk missing first is always stored, however full the ring. |
| `BlobInbound.RefusedIff` | src/crates/peering/src/ring_buffer/inbound.rs:52-132 | Each refusal happens if and only if its condition holds; a missing chunk is complained of if and only if the last chunk comes early or the ring is filled with a gap in it. |
| `BlobInbound.LeftInRing` | src/crates/peering/src/ring_buffer/inbound.rs:52-132 | What every attempt leaves in the ring; a chunk refused for a gap is held but never noticed as the last. |
| `BlobInbound.AnyOrderIsAccepted` | src/crates/peering/src/ring_buffer/inbound.rs:52-145 | Chunks of a blob no longer than the window, other than the last, are accepted in any order, any number of times, with reads in between, and stay stored. |
| `BlobInbound.AnyOrderCompletes` | src/crates/peering/src/ring_buffer/inbound.rs:52-132 | After all of them the last chunk is answered with complete. |
| `BlobInbound.InboundBytesBounded` | src/crates/peering/src/ring_buffer/inbound.rs:52-132 | Buffered bytes are at most window * chunk size. |
| `BlobFairness.NoStarvation` | src/crates/peering/src/transport/blob/mod.rs:259-327 | In every interleaving of looks, picks and cursor moves of k transmitters, with streams opening and ending at any moment and from any state: among Choose(k + m, k) picks, m the number of streams ever open, is one of a stream that stays open and keeps giving a new chunk. |
| `BlobFairness.NoStarvationFromRest` | src/crates/peering/src/transport/blob/mod.rs:259-327 | From a state in which no transmitter is between its look and its move, more than Worst(k, m - 1) picks contain it. |
| `BlobFairness.BoundIsMet` | src/crates/peering/src/transport/blob/mod.rs:259-327 | For every k and m there is a run from rest with exactly Worst(k, m - 1) picks, none of them of the last stream: the bound cannot be lowered. |
| `BlobFairness.WorstIsChoose` | src/crates/peering/src/transport/blob/mod.rs:259-327 | The recursively defined bound Worst(k, c) is the binomial Choose(k + c, k) less one. |
| `BlobFairness.ThirdStreamPassedOver` | src/crates/peering/src/transport/blob/mod.rs:259-327 | Two transmitters and three streams: a run from the start with five picks, none of them of the third stream. |
| `BlobFairness.OneAtATimeBound` | src/crates/peering/src/transport/blob/mod.rs:259-327 | When no transmitter looks while another is between its look and its move, as many picks as there are streams contain the stream, however many transmitters there are. |
| `BlobFairness.AsManyAsStreamsIff` | src/crates/peering/src/transport/blob/mod.rs:259-327 | As many picks as streams always suffice if and only if there is at most one transmitter or just one stream. |
| `BlobFairness.RankDrops` | src/crates/peering/src/transport/blob/mod.rs:1205-1233 | After another stream was picked strictly fewer streams are ahead in cyclic order. |
| `BlobFairness.AgainBeforeNew` | src/crates/peering/src/transport/blob/mod.rs:259-322 | Nothing new is picked while any stream seen at the look has a chunk to send again; the first in turn from the cursor of that look is picked, and nothing only if none has anything. |
| `BlobDispatch.OrderStreamsFromCursor` | src/crates/peering/src/transport/blob/mod.rs:1205-1218 | All streams once, in cyclic order of ids from the cursor. |
| `BlobDispatch.NextStreamAfter` | src/crates/peering/src/transport/blob/mod.rs:1220-1233 | The next higher id, else the lowest; none if and only if there is no stream. |
| `BlobDispatch.PickFrom` | src/crates/peering/src/transport/blob/mod.rs:293-322 | The first stream in that order that offers a chunk and still gives it when asked. |
| `BlobDispatch.ChunkDispatcher.constructor` | src/crates/peering/src/transport/blob/outbound.rs:134-149 | No stream, no cursor, every transmitter at rest. |
| `BlobDispatch.ChunkDispatcher.LookFromCursor` | src/crates/peering/src/transport/blob/mod.rs:259-269 | Takes the streams and the cursor of that moment, and returns all those streams once, in cyclic order from that cursor. |
| `BlobDispatch.ChunkDispatcher.PickChunk` | src/crates/peering/src/transport/blob/mod.rs:270-322 | From what was seen at the look: the first stream that gives a chunk to be sent again, else the first that gives a new one, else none. The cursor stays. |
| `BlobDispatch.ChunkDispatcher.AdvanceCursor` | src/crates/peering/src/transport/blob/mod.rs:324-327 | The cursor moves past the picked stream among the streams open now, also when another transmitter has moved it since the look. |
| `BlobReservations.Conservation` | src/crates/peering/src/transport/mod.rs:528-562 | In every interleaving of counter reads, exchanges, table updates, drains, releases and dropped tasks each counter equals the sum of what is still reserved on its side and of the bytes lost so far by overwriting a row or dropping a task. |
| `BlobReservations.BalancedIff` | src/crates/peering/src/transport/blob/mod.rs:129-141 | In every run the counters equal what is reserved if and only if no row with bytes was overwritten and no task was dropped between raising a counter and storing or returning its bytes. |
| `BlobReservations.NoUnderflow` | src/crates/peering/src/transport/mod.rs:547-562 | In every run, also one that lost bytes, the branch that clamps a counter at zero is never taken. |
| `BlobReservations.CapsRespected` | src/crates/peering/src/transport/mod.rs:528-545 | In every run no counter ever passes the largest cap used so far, nor 64 bits, whatever happened between a read of the counter and its exchange. |
| `BlobReservations.ReservedIff` | src/crates/peering/src/transport/mod.rs:528-545 | An exchange reserves if and only if the counter is as last read by that task and the bytes fit the cap and 64 bits; then they are counted and in its hands, else nothing changes. |
| `BlobReservations.AllReturned` | src/crates/peering/src/delivery.rs:61-71 | When every holder has let go each counter is exactly what was lost, so zero if nothing was. |
| `BlobReservations.DrainEmptiesTables` | src/crates/peering/src/transport/blob/mod.rs:1171-1191 | Failing all streams empties that peer's table and no other. |
| `BlobReservations.DroppedTaskLeaks` | src/crates/peering/src/transport/blob/mod.rs:129-141 | A run from zero in which a task is dropped after its counter was raised and before its row is stored: its bytes stay counted although no id was reused and nobody holds anything. |
| `BlobReservations.ReusedIdLeaks` | src/crates/peering/src/transport/blob/mod.rs:129-141 | A run from zero in which no task is dropped and a stream id is reused: its bytes stay counted although nobody holds anything. |
| `BlobReservations.BlobBufferTracker.constructor` | src/crates/peering/src/transport/mod.rs:477-481 | Both counters start at zero. |
| `BlobReservations.BlobBufferTracker.TryReserve` | src/crates/peering/src/transport/mod.rs:528-545 | Whatever others write to the counter between the rounds of the loop: it ends reserved in the first round whose exchange finds the value it read, and refused in the first round whose value leaves no room within the cap and 64 bits; the other side is untouched. |
| `BlobReservations.BlobBufferTracker.Release` | src/crates/peering/src/transport/mod.rs:547-562 | Lowers one counter, not below zero. |
| `BlobReservations.BlobBufferTracker.TryReservePair` | src/crates/peering/src/transport/mod.rs:511-526 | Both sides or neither; a refusal names the first side without room and restores the other. |
| `BlobReservations.ReservationTables.Reserve` | src/crates/peering/src/transport/blob/mod.rs:129-141 | What others hold stays the same unless a row is overwritten, and then grows by exactly that row. |
| `BlobReservations.ReservationTables.Release` | src/crates/peering/src/transport/blob/mod.rs:143-151 | Gives back exactly the row of the stream. |
| `BlobReservations.ReservationTables.FailAllStreams` | src/crates/peering/src/transport/blob/mod.rs:1171-1191 | Empties both tables and gives back exactly what they held. |
| `SessionDedupe.NewOnlyOnce` | src/crates/peering/src/session.rs:421-484 | Between two `New` verdicts for one id the first attempt was given up, or its acceptance was followed by at least 128 different other accepted ids. |
| `SessionDedupe.AnsweredExactlyOnce` | src/crates/peering/src/session.rs:439-484 | The first event that ends an attempt answers each of its waiters once: accepted after a success, rejected with the error after a failure, abandoned after a give-up; no other event of the run ever answers them. |
| `SessionDedupe.UnansweredWhileOpen` | src/crates/peering/src/session.rs:421-437 | While the attempt has not ended its waiters are not answered. |
| `SessionDedupe.VerdictFromEvents` | src/crates/peering/src/session.rs:421-437 | Told from the events: waiting if and only if an attempt is open, duplicate only if accepted before, new only if every acceptance is 128 acceptances ago. |
| `SessionDedupe.AcceptedIsRemembered` | src/crates/peering/src/session.rs:439-455 | An accepted id is remembered until 128 more were accepted. |
| `SessionDedupe.PendingIff` | src/crates/peering/src/session.rs:421-484 | An id is pending if and only if an attempt was begun and has not ended. |
| `SessionDedupe.SendAll` | src/crates/peering/src/session.rs:459-469 | Every waiter is sent the decision, in order. |
| `SessionDedupe.RunOk` | src/crates/peering/src/session.rs:25-38 | History and order agree, hold the newest accepted ids, at least 128 once there were as many, and are disjoint from pending; no waiter waits twice. |
| `SessionDedupe.DedupeLimit` | src/crates/peering/src/session.rs:636-641 | Twice the queue size, but at least 128. |
| `SessionDedupe.DedupeState.Begin` | src/crates/peering/src/session.rs:421-437 | Duplicate, waiting duplicate or new, exactly by history and pending. |
| `SessionDedupe.DedupeState.Complete` | src/crates/peering/src/session.rs:439-470 | Ends the attempt, answers its waiters with its result, records a successful id once, and respects the limit whenever an id was recorded. |
| `SessionDedupe.DedupeState.Evict` | src/crates/peering/src/session.rs:451-455 | The eviction loop keeps exactly the newest ids. |
| `SessionDedupe.DedupeState.Abandon` | src/crates/peering/src/session.rs:472-484 | Ends the attempt without recording it and answers its waiters with that. |
| `SessionDedupe.DedupeState.Clear` | src/crates/peering/src/session.rs:40-44 | Forgets everything. |
| `Frames.FrameReadState.ReadNext` | src/crates/peering/src/transport/frame.rs:188-253 | For every way the stream is cut into reads and every earlier cancellation: the outcome of the one-shot reader on the bytes held and to come, except the end inside a header. |
| `Frames.FrameReadState.ReadHeader` | src/crates/peering/src/transport/frame.rs:193-227 | The header phase of the same. |
| `Frames.FrameReadState.ReadPayload` | src/crates/peering/src/transport/frame.rs:229-253 | The payload phase of the same. |
| `Frames.FrameReadState.FillPayload` | src/crates/peering/src/transport/frame.rs:229-245 | The loop that fills the payload: stops full, cancelled, or failed at the end of the bytes, and never un-reads. |
| `Frames.ReadConnection` | src/crates/peering/src/transport/frame.rs:134-165 | Over a whole connection the resumable reader returns, in order, the frames of repeated one-shot reads, and ends as they do. It makes progress: with more calls than frames, each given enough reads, it reaches that end. |
| `Frames.FramesRoundTrip` | src/crates/peering/src/transport/frame.rs:116-165 | Reading back any list of sent frames returns that list. |
| `Frames.BlobChunkRoundTrip` | src/crates/peering/src/transport/frame.rs:59-88 | A blob chunk frame is a well-formed frame whose payload decodes to the chunk sent. |
| `Layouts.HeaderLayout` | src/crates/peering/src/wire.rs:217-230 | Each field of a frame header is at its offset, most significant byte first. |
| `Layouts.HeaderRefusedIff` | src/crates/peering/src/wire.rs:231-257 | A header is refused if and only if its length is not 32 or its first two bytes are not 1. |
| `Layouts.FrameReadIff` | src/crates/peering/src/transport/frame.rs:134-165 | What the one-shot reader does with any bytes, in terms of the bytes: each outcome under its condition. |
| `Layouts.ChunkLayout` | src/crates/peering/src/transport/frame.rs:59-88 | Each field of a chunk payload is at its offset, and the last-chunk flag is bit 0. |
| `Layouts.ChunkRefusedIff` | src/crates/peering/src/wire.rs:116-138 | A chunk is refused if and only if its length is not what it says or an undefined flag is set. |
| `Layouts.ErrorLayout` | src/crates/peering/src/wire.rs:183-188 | The error id is in the first four bytes and the text follows. |
| `Wire.HeaderRoundTrip` | src/crates/peering/src/wire.rs:217-257 | Decoding an encoded header returns it, or refuses its version. |
| `Wire.HeaderCanonical` | src/crates/peering/src/wire.rs:231-257 | A header that decodes re-encodes to the same bytes. |
| `Wire.ChunkRoundTrip` | src/crates/peering/src/wire.rs:116-138 | Decoding an encoded chunk payload returns it. |
| `Wire.ChunkCanonical` | src/crates/peering/src/wire.rs:116-138 | A chunk payload that decodes re-encodes to the same bytes. |
| `ErrorPayloads.NewErrorPayload` | src/crates/peering/src/wire.rs:171-181 | The longest prefix of at most 1024 bytes that ends at a character boundary: valid UTF-8, and 1021 to 1024 bytes of a longer text. |
| `ErrorPayloads.BoundaryNearby` | src/crates/peering/src/wire.rs:171-181 | A character boundary is at most three bytes back from anywhere. |
| `ErrorPayloads.ErrorRoundTrip` | src/crates/peering/src/wire.rs:183-201 | Decoding an encoded error returns it if and only if its text is valid UTF-8. |
| `ErrorPayloads.ErrorCanonical` | src/crates/peering/src/wire.rs:190-201 | An error payload that decodes re-encodes to the same bytes. |
| `ErrorPayloads.ValidIff` | src/crates/peering/src/wire.rs:190-201 | Bytes pass as text if and only if they are the UTF-8 encodings of scalar values, one after the other (section 3 of RFC 3629). |
| `ErrorPayloads.SendError` | src/crates/peering/src/wire.rs:171-201 | A text of any length survives cutting, encoding and decoding as the cut text. |
| `AuthCodec.InitRoundTrip` | src/crates/peering/src/transport/socket_backend.rs:986-1046 | Parsing the encoding of any legal message returns it. |
| `AuthCodec.InitCanonical` | src/crates/peering/src/transport/socket_backend.rs:1008-1046 | A payload that parses is the encoding of the legal message it parses to. |
| `AuthMessages.EncodeAuthInit` | src/crates/peering/src/transport/socket_backend.rs:986-1006 | The growing buffer ends as the byte layout; refused if and only if the message is not legal. |
| `AuthMessages.ParseAuthInit` | src/crates/peering/src/transport/socket_backend.rs:1008-1046 | The cursor run equals the parser the two laws are about. |
| `Layouts.InitIsLaidOut` | src/crates/peering/src/transport/socket_backend.rs:986-1006 | Kind, version, every length and every part of the message is at its offset. |
| `AuthCodec.CallbackRoundTrip` | src/crates/peering/src/transport/socket_backend.rs:1048-1103 | Parsing the encoding of any legal message returns it. |
| `AuthCodec.CallbackCanonical` | src/crates/peering/src/transport/socket_backend.rs:1068-1103 | A payload that parses is the encoding of the legal message it parses to. |
| `AuthMessages.EncodeCallbackInit` | src/crates/peering/src/transport/socket_backend.rs:1048-1066 | The growing buffer ends as the byte layout; refused if and only if the message is not legal. |
| `AuthMessages.ParseCallbackInit` | src/crates/peering/src/transport/socket_backend.rs:1068-1103 | The cursor run equals the parser the two laws are about. |
| `Layouts.CallbackIsLaidOut` | src/crates/peering/src/transport/socket_backend.rs:1048-1066 | Kind, version, every length and every part of the message is at its offset. |
| `AuthCodec.ChallengeRoundTrip` | src/crates/peering/src/transport/socket_backend.rs:1105-1173 | Parsing the encoding of any legal message returns it. |
| `AuthCodec.ChallengeCanonical` | src/crates/peering/src/transport/socket_backend.rs:1127-1173 | A payload that parses is the encoding of the legal message it parses to. |
| `AuthMessages.EncodeAuthChallenge` | src/crates/peering/src/transport/socket_backend.rs:1105-1125 | The growing buffer ends as the byte layout; refused if and only if the message is not legal. |
| `AuthMessages.ParseAuthChallenge` | src/crates/peering/src/transport/socket_backend.rs:1127-1173 | The cursor run equals the parser the two laws are about. |
| `Layouts.ChallengeIsLaidOut` | src/crates/peering/src/transport/socket_backend.rs:1105-1125 | Kind, version, every length and every part of the message is at its offset. |
| `AuthCodec.ProofRoundTrip` | src/crates/peering/src/transport/socket_backend.rs:1175-1215 | Parsing the encoding of any legal message returns it. |
| `AuthCodec.ProofCanonical` | src/crates/peering/src/transport/socket_backend.rs:1189-1215 | A payload that parses is the encoding of the legal message it parses to. |
| `AuthMessages.EncodeAuthProof` | src/crates/peering/src/transport/socket_backend.rs:1175-1187 | The growing buffer ends as the byte layout; refused if and only if the message is not legal. |
| `AuthMessages.ParseAuthProof` | src/crates/peering/src/transport/socket_backend.rs:1189-1215 | The cursor run equals the parser the two laws are about. |
| `Layouts.ProofIsLaidOut` | src/crates/peering/src/transport/socket_backend.rs:1175-1187 | Kind, version, every length and every part of the message is at its offset. |
| `Layouts.RefusedAsViolation` | src/crates/peering/src/transport/socket_backend.rs:1008-1301 | Whatever is wrong with an authentication message, it is refused as a protocol violation. |
| `AuthMessages.Cursor.TakeCertLens` | src/crates/peering/src/transport/socket_backend.rs:1263-1283 | The loop reads the count and exactly that many non-zero lengths. |
| `AuthMessages.Cursor.TakeCertChain` | src/crates/peering/src/transport/socket_backend.rs:1297-1301 | The loop reads one certificate per length. |
| `AuthMessages.PutChainHeader` | src/crates/peering/src/transport/socket_backend.rs:1308-1326 | Appends count and lengths; refused if and only if the chain is empty, too long or has an empty or oversized certificate. |
| `AuthMessages.PutChainBody` | src/crates/peering/src/transport/socket_backend.rs:1328-1332 | Appends the certificates in order. |
| `FeatureExpansion.ExpandEntry` | src/crates/xtask/src/manifest.rs:284-344 | Terminates; fails if and only if a cycle, a missing or a malformed feature is reachable, naming one; else returns exactly the non-internal entries reachable, each once. |
| `FeatureExpansion.ExpandList` | src/crates/xtask/src/manifest.rs:333-343 | The same for the entries of one feature. |
| `FeatureExpansion.NormalizeFeature` | src/crates/xtask/src/manifest.rs:251-282 | One feature of the published manifest: a list is required, and the result is the union of what its entries reach. |
| `FeatureExpansion.Slash` | src/crates/xtask/src/manifest.rs:346-355 | The split is at the first slash. |
| `FeatureExpansion.EdgeIff` | src/crates/xtask/src/manifest.rs:346-355 | On texts: the internal edges are exactly crate/feature and crate?/feature for the crates that have a table. |
| `FeatureExpansion.CrateIff` | src/crates/xtask/src/manifest.rs:357-360 | On texts: the entries dropped are exactly crate, crate?, dep:crate and dep:crate? for those crates. |
| `FeatureExpansion.TextsIff` | src/crates/xtask/src/manifest.rs:318-332 | A feature lists its texts; other items of its list are passed over. |
| `FeatureExpansion.ReachesThroughChild` | src/crates/xtask/src/manifest.rs:333-343 | What an internal feature reaches is what its entries reach. |
| `FeatureExpansion.SoundFromChildren` | src/crates/xtask/src/manifest.rs:301-344 | A feature is free of faults when it is not on the stack and its entries are free of faults with it on the stack. |

## Left out

- Tasks, wake-ups, timeouts and the async wrappers around the modelled steps; in particular whether a waiting caller is ever woken.
- BlobOutbound.OutboundRingBuffer.TrySeal: one round of the loop only. What a round returns is told by `BlobHistory.CloserIsTold`, and that the stream can always be sealed by `BlobProgress.CanSeal`; that a waiting caller is woken is not.
- BlobReservations.BlobBufferTracker.TryReservePair: stated for a caller nobody interferes with; the interleavings of its parts are actions of the transition system.
- RetainedStores.NewLane: lanes are held by value inside the store, so aliasing of lane objects is not modelled.
- Transmitters that die between their look and their move: they are transmitters that take no further step, and a new one counts as another.
- BlobDispatch.SortIds: sorts by repeated minimum where the library sort is called.
- FeatureExpansion.ExpandEntry: the stack is passed by value, and the order of the result is not specified.
- Wrap-around or saturation of 64-bit sequence numbers and chunk ids, and of 32-bit message ids.
- Acknowledgement, error and complete frames of the blob protocol as retained write slots; the transfer model lets any answer ever sent arrive at any later time or never.
- Exactly-once delivery to the application: abandoned attempts and session restarts allow a message to be delivered again, and only the local guarantee is stated.
- That a sender never overruns the receiver's window: acknowledgements free slots when a chunk is stored, not when it is read, so a transfer may fail for a slow reader; `BlobHistory.RefusedForItsReason` says when.
- TLS, certificates, signatures, nonces, path canonicalisation and the UTF-8 test of paths: foreign calls.
- HELLO and blob-complete payloads, length-prefixed auth framing, derivation of lane capacities, configuration, resolver, registry, peer state machine, rate-limited logging: nothing hard to state about them.
- The observability reducer, and the text rewriting around feature expansion.

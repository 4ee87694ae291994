# Flight replay kernel: a verified model

This project models the parts of the flight recorder and replay kernel that must agree
with each other while many things happen at once, and proves that they do.

The centre is the **cursor room**. A publisher ticks over its subscribers, cuts the events
that are due into pages of 32 under consecutive sequence numbers, sends only the front page
until it is acknowledged, and starts over with a baseline when the playback revision changes.
The server accepts only the next acknowledgement of the right epoch. The client drops what it
already applied, resets on a new epoch or revision, and holds frames behind an event watermark.
`Protocol.dfy` is a step system of publisher, session, network and client; `Coverage.dfy` says
what the queued pages amount to while the store grows; `Room.dfy` puts both together with the
playback they follow and the viewer that folds gear states from what it is handed. Beside them,
`AnyNetwork.dfy` drops the order the network was trusted with, `Frames.dfy` says what a frame is
shown with, `FrameOrder.dfy` in which order and `FrameRevisions.dfy` of which timeline,
`Baselines.dfy` when a viewer starts over and with what, `Pacing.dfy` how often it is sent anything,
`CatchingUp.dfy` that it can always catch up, and `LostEvents.dfy` what it may nevertheless never
be told.

Around it:

- `Store.dfy`, `Timeline.dfy`, `SaveLoad.dfy`: the time-series store, its queries against linear
  specifications, and saving and loading as row lists.
- `Playback.dfy`, `Playing.dfy`: the live, paused and playing timeline over wall-clock time, and how far and how
  fast it goes.
- `Publisher.dfy`, `Client.dfy`, `Sessions.dfy`: the three state machines of the room, one by one.
- `Checksum.dfy`, `Reassembly.dfy`: CRC-32 (section 8 of RFC 1952) and the chunk reassembler.
- `GearState.dfy`, `GearTracker.dfy`: the viewer's fold and the simulator bridge's tracker,
  each against the full history.
- `Gate.dfy`, `Operations.dfy`: two small lock protocols as interleaved steps of any number of threads.
- `Lttb.dfy`, `Triangles.dfy`, `Smoothing.dfy`, `MergePoints.dfy`: downsampling and the geometry it compares,
  live smoothing, and the merge of series.
- `Common.dfy`, `Sorting.dfy`: options, and sorted vectors with stable insertion.

Where the source updates an object in place the model has a class with the same fields and
methods, each proved against a function of the old state; the properties are lemmas about those
functions. Timestamps are reals, counters are unbounded, instants are real inputs, payloads are
byte sequences. `dafny verify dfyconfig.toml` checks everything.

Properties that turned out false of the code are kept as they are, with the exact condition and an
example of the failing side:

- a page query with crossed bounds panics (`Store.PageSafeIffOrdered`); every caller in the repository checks
  the order first (`core/src/management/routes.rs:178`, `core/src/management/series.rs:281`,
  `core/src/cursor.rs:879`), so only direct users of the store can reach it;
- an event stamped at or before the cursor last recorded, say from a second producer with an older clock, is
  lost to the stream (`Coverage.EventKeepsCompleteIff`, `Room.DeltasCompleteIff`, `LostEvents.OlderEventLost`);
- a subscriber that joins an empty live store is never sent the events up to the first cursor
  (`Room.EarlySubscriberIff`, `LostEvents.EarlySubscriberExample`);
- a gear event appended behind a replay cursor is not sent to the simulator (`GearTracker.ReplayCallResolvesIff`,
  `GearTracker.SimulatorFollowsStoreIff`, `GearTracker.LateEventMissed`);
- after a respawn the simulator is sent the gear of the flight before, while the viewer shows none
  (`GearTracker.BridgeAgreesWithViewerIff`);
- an aircraft left out of a baseline may have a gear the viewer cannot know, and so may one whose gear command
  came too late (`Room.ViewerAgreesIff`, `Room.ViewerAgreesWithStoreIff`, `GearState.LeftOutDisagrees`,
  `LostEvents.LateGearUnseen`);
- a frame may be shown with a gear older than its cursor, while pages of an older cursor are in flight
  (`Frames.ShownFrameGearIff`, `Frames.InFlightUnseen`);
- on a network that delays packets across a revision change pages are applied twice: a late page itself, or, after
  a stale reset, a copy of the newest page (`AnyNetwork.AnyNetworkPrefixIff`, `AnyNetwork.LatePageExample`,
  `AnyNetwork.StaleResetExample`);
- on such a network a stale reset also lets an old frame be shown after a newer one (`FrameOrder.AnyNetworkFramesIff`,
  `FrameOrder.StaleFrameExample`);
- a playback snapshot that read the bounds before others were appended moves the cursor back within a revision
  (`Playback.StaleBoundsIff`, `Playback.StaleBoundsExample`);
- a client that comes back from another address while a sweep of expired sessions is under way loses its index
  entry (`Sessions.SweepKeepsIndexedIff`, `Sessions.MovedClientUnindexed`);
- a handshake from an address another client used leaves a dangling index entry (`Sessions.HandshakeExactIff`,
  `Sessions.TakenAddressDangles`);
- a saved respawn with other schemas fails the whole load (`SaveLoad.RoundTripIff`, `SaveLoad.RespawnUnloadable`);
- merging a series with repeated timestamps is not idempotent (`MergePoints.MergeAgainIff`, `MergePoints.RepeatedFlips`);
- a smoothing buffer that runs past its extrapolation limit steps back in time, and so it does after a sample
  that comes later than the one before it (`Smoothing.FramesAdvanceIff`, `Smoothing.PushStepsBackIff`,
  `Smoothing.FramesStepBack`, `Smoothing.LateSampleStepsBack`);
- downsampling to fewer than three points returns everything (`Lttb.WithinLimitIff`, `Lttb.TwoPointLimitIgnored`).

Documentation and code differ in one place: the configuration of an aircraft is described as set by its
first spawn (`core/src/store.rs:103`), while every spawn that arrives replaces it (`core/src/store.rs:242-248`).
The model follows the code.

## Model

| member | source | states |
|---|---|---|
| `Room.RunInvariant` | core/src/cursor.rs:155-330 | Over every run of a room (store growing, cleared and loaded, playback commanded and polled, publisher ticking over both, network losing, repeating and reordering, viewer folding) the delivery invariant, the coverage invariant, the agreement of timeline and store, and the agreement of the viewer's gear map with the batches applied all hold at every moment. |
| `Room.RoomSnapshotFits` | core/src/playback.rs:123-128 | What the publisher reads in a room always fits what it has queued: a live cursor is at or after every stored event, a delta after a cursor finds a cursor, and a replaced store is never continued by a delta. |
| `Room.SnapshotsNeverStale` | core/src/playback.rs:308-345 | The revision the publisher sees never falls behind the one it saw before. |
| `Room.AppliedCoversStore` | core/src/cursor.rs:186-274 | Delta coverage end to end: once the client has caught up with the queue and a cursor has been recorded, the batches it applied since the latest baseline hold that baseline's events followed by exactly the events seen after its cursor and up to the cursor last recorded, in (timestamp, aircraft) order, however many ticks each page waited; what was seen is the store without the events that came too late. A baseline without a cursor counts as an empty one at the first cursor of its revision. |
| `Room.DeltasCompleteIff` | core/src/cursor.rs:871-887 | At every moment of every run the deltas lack nothing stored after the baseline cursor if and only if no such event was stamped at or before the cursor recorded when it arrived. |
| `Room.NothingBeforeCursor` | core/src/cursor.rs:187-273 | Until a cursor is recorded the pages queued since the latest baseline are empty. |
| `Room.EarlySubscriberIff` | core/src/cursor.rs:187-273 | For a subscriber that joined an empty store, the pages queued since hold the whole history up to the recorded cursor if and only if nothing is stored at or before the first cursor and nothing came too late; what is stored by the first cursor is in none of them. |
| `LostEvents.EarlySubscriberExample` | core/src/cursor.rs:187-273 | A run of the room, for any network that does not fix the revision, in which a subscriber joins the empty live store, applies and acknowledges the empty baseline, and the first spawn then arrives: it is stored by the first cursor and in no page. |
| `Room.ViewerAgreesIff` | bindings/godot/src/model.rs:207-240 | For an aircraft spawned at the recorded cursor, the gear folded by the remote viewer equals the reverse scan of the history seen if and only if the baseline described the aircraft, or a gear command or spawn was streamed after it, or the earlier history had nothing to tell; streams that began without a cursor included. |
| `Room.SeenIsStored` | core/src/store.rs:235-272 | Of an aircraft none of whose events came too late, all that is stored has been seen. |
| `Room.ViewerAgrees` | bindings/godot/src/model.rs:355-373 | The viewer shows what the full history of the store gives for every spawned aircraft without late events that had a state sample at the baseline, and for every one spawned in a later delta. |
| `Room.ViewerAgreesWithStoreIff` | bindings/godot/src/model.rs:355-373 | Against the stored history itself, for every aircraft, spawned or not, and however late its events came: the viewer agrees if and only if it has been told a gear command or spawn since the last despawn, or there was none to tell; or, where a gear command or spawn too late has overruled what was seen, exactly when that one stands for the gear the viewer shows anyway. |
| `LostEvents.LateGearUnseen` | core/src/cursor.rs:871-887 | A concrete gear command that arrives too late: the viewer has no gear for the aircraft, the history says down. |
| `CatchingUp.RoomCatchesUp` | core/src/cursor.rs:155-330 | From every moment of every run with a live subscriber, while the retry limit allows and the store holds anything, some moves of the room lead to one in which the viewer has caught up. |
| `Room.FoldOfCaughtUp` | bindings/godot/src/lib.rs:1212-1249 | A caught-up viewer's map is the fold of the pages since the baseline, whatever resets, retransmissions and reorderings it lived through. |
| `Protocol.DeliveredIsPrefix` | core/src/cursor.rs:659-709 | At every moment of every run the batches handed to the consumer are a prefix of the pages queued, each once and in order, and the acknowledgement the server holds is the count applied or one less; for any reordering within a revision, for lossy first-in-first-out networks, and for networks that never go back to an older revision. |
| `Protocol.RunInvariant` | core/src/cursor.rs:182-293 | The invariant behind it: pages numbered without gap, pending pages the tail of the history with the acknowledgement at their head, every packet on the wire describing its page, the client's counter in step except between a reset and its baseline. |
| `Protocol.TickKeeps` | core/src/cursor.rs:181-330 | A tick keeps that invariant, whatever the store, the snapshot and the clock. |
| `Protocol.DeliverKeeps` | core/src/cursor.rs:636-716 | Receiving any packet ever sent, once or again, keeps it. |
| `Protocol.FramesFollowTheirEvents` | core/src/cursor.rs:295-298 | A frame is shown only after every page its watermark counts was applied, and its watermark counts every page queued when it was sent. |
| `FrameOrder.FramesClimb` | core/src/cursor.rs:636-716 | Over every run on the networks the stream is made for, resets and epochs included: every frame shown is newer than all frames shown before it, so no frame is shown twice or after a newer one. |
| `FrameOrder.AnyNetworkFramesIff` | core/src/cursor.rs:640-716 | On any network whatsoever: the frames shown in a run are strictly newer one after the other if and only if no move put a frame before the client that was newer than its counter, complete, and yet not newer than the last frame shown, which a cleared counter alone allows. |
| `FrameOrder.StretchClimbs` | core/src/cursor.rs:636-673 | On any network, between two packets that start the client afresh: the frames shown climb strictly, from above the counter the stretch began with, and the counter is the last of them. |
| `FrameOrder.ShownIff` | core/src/cursor.rs:596-650 | A move shows a frame exactly when it puts one before the client, delivered or held, that is newer than the counter and whose watermark has been applied. |
| `FrameOrder.ReceivedNotLost` | core/src/cursor.rs:636-650 | A frame delivered that is newer than the counter is shown at once or a frame at least as new is held behind its watermark. |
| `FrameRevisions.FramesUpToDate` | core/src/cursor.rs:636-716 | Over every run on the networks the stream is made for: a frame shown, held in between or not, is never of an earlier timeline revision than a page applied before it. |
| `FrameOrder.StaleFrameExample` | core/src/cursor.rs:703-716 | A run in which a stale reset clears the counter and the first frame is shown after the second. |
| `Frames.ShownFrameGearIff` | core/src/cursor.rs:295-326 | Over every run: the viewer shows a frame that some tick sent; when no later page has been applied its map is the fold of what was queued at that tick, and its gear for an aircraft is what the history stored then gives at the frame's own cursor exactly when it was told so up to the recorded cursor and no undelivered gear command or spawn lies between the two; a frame sent while nothing was pending has the recorded cursor itself. |
| `Frames.RunTraced` | core/src/cursor.rs:304-320 | Every frame on the wire or held was sent by a tick of the run, with that tick's cursor and with a watermark that counts the pages queued then. |
| `Frames.InFlightUnseen` | core/src/cursor.rs:192-194 | For example a gear command between the recorded cursor and the frame's, while older pages are in flight, is not known yet. |
| `Protocol.TickSendsFront` | core/src/cursor.rs:276-293 | A tick that finds its front page due and not given up puts exactly that page on the wire, behind everything received so far. |
| `Protocol.FrontPageArrives` | core/src/cursor.rs:674-702 | Once the front page reaches the client the consumer has applied it, and only it is new. |
| `Protocol.FrontPageCompletes` | core/src/transport/server.rs:208-227 | The acknowledgement being waited for is always accepted: it advances the session by one and the next listing retires the page. |
| `Protocol.StrayAckIgnored` | core/src/transport/server.rs:208-227 | An acknowledgement of another epoch, or of none, neither advances the session nor retires a page: it is one of the moves of every run, and changes nothing. |
| `Pacing.PageSendsApart` | core/src/cursor.rs:276-293 | Over every run of ticks, whatever acknowledgements, stores and snapshots they see: any two sends of one page are at least the retry interval apart. |
| `Pacing.FrontSentOrRemovedIff` | core/src/cursor.rs:276-293 | A tick sends its front page exactly when that was never sent or was last sent the retry interval ago, and then removes the subscriber instead exactly when the page has been sent as often as the retry limit allows. |
| `Pacing.FrameSentIff` | core/src/cursor.rs:300-326 | A tick sends a frame exactly when none was sent before or the latest is at least its frame interval ago. |
| `Pacing.FramesApart` | core/src/cursor.rs:300-326 | So any two frames are at least the frame interval of the later one apart. |
| `Protocol.QueueDrains` | core/src/cursor.rs:181-330 | From every state of a run with a live subscriber, while the retry limit allows, some moves of publisher, network and server bring the consumer every page queued. |
| `AnyNetwork.AnyNetworkPrefixIff` | core/src/cursor.rs:636-716 | On any network whatsoever, stale packets of older revisions included: at each moment of each run the batches applied are a prefix of the pages queued, each once and in order, if and only if no packet delivered so far was a page applied before that met a client taking it for the baseline of another revision, or a client whose counter a reset had cleared. |
| `AnyNetwork.DeliveryInOrderIff` | core/src/cursor.rs:688-702 | The same for one delivery, with the looser state it keeps: applied in order, with a counter that agrees or has been cleared by a reset, however stale. |
| `AnyNetwork.RunServer` | core/src/cursor.rs:181-330 | No network can upset the publisher: pages, pending queue, acknowledgement and wires keep their invariant whatever is delivered when. |
| `AnyNetwork.OrderedNeverReapplies` | core/src/cursor.rs:688-702 | Where deliveries never go back to an older revision no packet meets that guard: the condition of the ordered networks is enough. |
| `AnyNetwork.LatePageExample` | core/src/cursor.rs:688-716 | A run in which a reset of revision 2 and then the first page again arrive, and that page is applied twice. |
| `AnyNetwork.StaleResetExample` | core/src/cursor.rs:703-716 | A run in which both pages arrive in order, then the stale reset of revision 1, and then a copy of the newest page, not late at all, is applied again. |
| `Coverage.DeltaExact` | core/src/cursor.rs:871-887 | The delta between two cursors is exactly the stored events strictly after the first and up to the second, every aircraft in its stored order, merged by (timestamp, aircraft). |
| `Coverage.DeltasJoin` | core/src/cursor.rs:871-887 | Deltas of adjacent cursor ranges concatenate to the delta of the whole range, without gap or overlap. |
| `Coverage.BaselineInterleaves` | core/src/cursor.rs:829-869 | A baseline is in (timestamp, aircraft) order and holds, for every aircraft visible at the snapshot, its stored events up to the cursor cut as `Baselines.BaselineCut` says, and nothing for any other. |
| `Baselines.BaselineCut` | core/src/cursor.rs:845-867 | Of a visible aircraft the baseline sends a suffix of its stored events up to the cursor: where one of those is a spawn it begins with a spawn and holds no other, and where none is it is all of them. |
| `Baselines.BaselineExact` | core/src/cursor.rs:829-869 | For any store and any snapshot of the playback over it, live or not: an aircraft has events in the baseline exactly when it was sampled by the cursor and a spawn by the cursor is followed by no despawn by the cursor, and these are its stored events up to the cursor from the last spawn on. |
| `Baselines.BaselineOncePerRevision` | core/src/cursor.rs:192-202 | Over every run of a room: revisions queued never fall, and each has exactly one baseline page, its first; so a viewer starts over once per command or replacement and never in between. |
| `Coverage.TickCovers` | core/src/cursor.rs:186-274 | Whatever acknowledgements arrive, a tick with a snapshot that fits (`Room.RoomSnapshotFits`: in a room every snapshot does) keeps the queued pages equal to the baseline plus the events seen up to the recorded cursor. |
| `Coverage.ArrivalKeeps` | core/src/store.rs:235-272 | Whatever arrives, and however late, that equality stays; an event too late joins the late ones instead of those seen. |
| `Coverage.CompleteIff` | core/src/cursor.rs:871-887 | The deltas are complete if and only if no event stored after the baseline cursor came too late. |
| `Coverage.EventKeepsCompleteIff` | core/src/store.rs:235-272 | One more event after the baseline cursor keeps a complete stream complete if and only if it is stamped after the cursor recorded. |
| `Coverage.EventAtCursorLost` | core/src/cursor.rs:871-887 | For example an event stamped exactly at the recorded cursor is lost to the stream. |
| `LostEvents.OlderEventLost` | core/src/cursor.rs:871-887 | A concrete feed: complete up to the recorded cursor 3, and not any more once an event stamped 2 arrives. |
| `Coverage.LiveCursorCovers` | core/src/playback.rs:308-322 | In live mode the snapshot's cursor is at or after every stored event. |
| `Coverage.CursorlessCompleteIff` | core/src/cursor.rs:187-273 | After a baseline taken without a cursor the pages hold the whole history up to the recorded cursor if and only if nothing is stored at or before the first cursor of that revision and nothing came too late. |
| `Coverage.FirstEventsNeverQueued` | core/src/cursor.rs:876-878 | After such a baseline every event queued is stamped after the first cursor recorded. |
| `LostEvents.FirstSpawnMissed` | core/src/cursor.rs:876-878 | A concrete feed: the first spawn is stored at the first cursor, and no page holds it. |
| `Publisher.SubscriberState.RetireFront` | core/src/cursor.rs:182-190 | Retires only the front page, only when acknowledged, and records revision and cursor only when it completes its group. |
| `Publisher.SubscriberState.QueuePages` | core/src/cursor.rs:203-269 | The page loop equals cutting the events recursively into runs of 32 under consecutive sequence numbers. |
| `Publisher.SubscriberState.RefillQueue` | core/src/cursor.rs:192-274 | Queues what is due when nothing is pending: a baseline after a new revision or a cursor that moved back, else the delta. |
| `Publisher.SubscriberState.RunTick` | core/src/cursor.rs:181-326 | One tick: the new subscriber state and the packets sent, or removal once the retry limit is reached. |
| `Publisher.PaginateAt` | core/src/cursor.rs:203-233 | Page k of a cut has number first + k, is the baseline only if k is 0, is complete only if last, and holds events 32k up to 32k + 32. |
| `Publisher.PaginateKeepsEvents` | core/src/cursor.rs:203-233 | Concatenating the pages gives back the events, and no page holds more than 32. |
| `Client.CursorClient.ReleaseHeld` | core/src/cursor.rs:596-609 | Releases a held frame once its watermark is applied, and drops it when a newer frame was shown. |
| `Client.CursorClient.ReceivePayload` | core/src/cursor.rs:651-716 | The whole new client state, the output and the acknowledgement for every kind of payload. |
| `Client.CountersAccount` | core/src/cursor.rs:596-702 | Whatever arrives: every page is counted once, as new or as repeated, and no frame is counted twice, as shown, dropped or still held. |
| `Sessions.SessionState.SetSession` | core/src/transport/server.rs:171-193 | The handshake's effect on both maps; every row stays indexed by its client. |
| `Sessions.SessionState.SubscribeCursor` | core/src/transport/server.rs:195-206 | Accepted for a known cursor subscriber only; nothing else changes. |
| `Sessions.SessionState.AcknowledgeCursorEvent` | core/src/transport/server.rs:208-227 | Accepted exactly for a subscribed row, in its epoch, with the next number; a refusal changes nothing. |
| `Sessions.CounterCovered` | core/src/transport/server.rs:208-227 | Whatever acknowledgements arrive in whatever order, the counter never falls and every number it has passed was itself acknowledged, in the row's epoch, by a subscribed cursor subscriber. |
| `Sessions.InOrderAccepted` | core/src/transport/server.rs:208-227 | Acknowledgements that come in order are all accepted. |
| `Sessions.NewSessionRefuses` | core/src/transport/server.rs:171-193 | A new session accepts none before it has subscribed. |
| `Sessions.SessionState.SetCursorEpoch` | core/src/transport/server.rs:229-235 | Announces an epoch to a cursor subscriber's row, and nothing else changes. |
| `Sessions.SessionState.RemoveByAddress` | core/src/transport/server.rs:245-251 | Removes the row and its index entry; every other row stays indexed. |
| `Sessions.SessionState.CleanupExpired` | core/src/transport/server.rs:258-289 | When nothing comes between its two critical sections, removes exactly the rows unseen for longer than the timeout, and from the client index exactly the entries of their clients; every row left stays indexed. |
| `Sessions.SweepKeepsIndexedIff` | core/src/transport/server.rs:276-281 | Whatever comes between the two critical sections of a sweep, the rows left stay indexed if and only if none of them is of a client that was collected. |
| `Sessions.MovedClientUnindexed` | core/src/transport/server.rs:258-289 | For example a client that comes back from another address in between is left without its index entry. |
| `Sessions.HandshakeKeepsIndexed` | core/src/transport/server.rs:171-193 | Every row stays reachable from the client index, whoever held the address before. |
| `Sessions.HandshakeExactIff` | core/src/transport/server.rs:171-193 | The index gains no dangling entry if and only if the address was free or already this client's. |
| `Sessions.TakenAddressDangles` | core/src/transport/server.rs:171-193 | For example a second client from the address of the first leaves the first one's index entry dangling. |
| `Sessions.HandshakeEvictsIff` | core/src/transport/server.rs:175-177 | A row of another client at another address is evicted by a handshake exactly when the client's index entry was dangling and pointed there. |
| `Checksum.Checksum32` | core/src/cursor.rs:812-821 | The bit-serial loops compute the reflected CRC-32 with polynomial 0xEDB88320. |
| `Checksum.PolynomialIs` | core/src/cursor.rs:817 | The bits folded in are those of the numeral 0xEDB88320. |
| `Checksum.ShiftHalves` | core/src/cursor.rs:816-818 | A shift halves the number the register holds, and the bit shifted out says whether it was odd. |
| `Checksum.WidenIsByte` | core/src/cursor.rs:815 | The byte mixed in is its own number. |
| `Checksum.BitInjective` | core/src/cursor.rs:816-818 | No step of the register loses information. |
| `Checksum.BurstSurvives` | core/src/cursor.rs:812-821 | The difference of two registers with the outstanding burst never cancels while the payloads differ only inside four consecutive bytes. |
| `Checksum.ShortBurstDetected` | core/src/cursor.rs:812-821 | Two different payloads of one length, of any length, that differ only inside four consecutive bytes have different checksums. |
| `Reassembly.CursorReassembler.PushChunk` | core/src/cursor.rs:362-414 | Expiry, validation, storing and completion of one chunk: the whole new table and the outcome. |
| `Reassembly.OwnChunk` | core/src/cursor.rs:382-413 | A chunk of a payload completes it exactly when it was the last one missing, and otherwise adds its index to those held. |
| `Reassembly.ChunkRoundTrip` | core/src/cursor.rs:361-414 | In any order, with repeats and interleaved with other payloads, a chunk is answered by nothing while an index is missing and by exactly the original bytes when it was the last. |
| `Reassembly.CompletedIsRecent` | core/src/cursor.rs:362-414 | Over every run from an empty table, foreign and damaged chunks included: a payload that completes is the join of one arrival per index of its key, all under one size and checksum and none older than the timeout, with that size and checksum; pieces of a transfer that has expired are never mixed in. |
| `Reassembly.EncodeCoversEverything` | core/src/cursor.rs:494-526 | The encoder's chunks carry every index once, within the size limit, under one key. |
| `Reassembly.EncodedIffAccepted` | core/src/cursor.rs:494-503 | The encoder refuses exactly the payloads whose chunks the reassembler would refuse. |
| `Reassembly.DamagedPayloadRejected` | core/src/cursor.rs:402-412 | One push that completes a payload under the original's size and checksum with a difference only inside four consecutive bytes returns the original. |
| `Reassembly.DamagedTransfer` | core/src/cursor.rs:361-414 | Damage inside four consecutive bytes of a payload, on any copies of its chunks, in any schedule with repeats, other payloads and timeouts: a push of one of its chunks waits, reports a checksum mismatch, or returns the original. |
| `GearState.GearStates.ApplyCursorEventBatch` | bindings/godot/src/model.rs:207-240 | The loop folds a batch into the map in place, clearing it first for a baseline. |
| `GearState.LatestGearState` | bindings/godot/src/model.rs:355-373 | The reverse loop returns the last gear command or nothing after a spawn. |
| `GearState.PageSplitIrrelevant` | bindings/godot/src/model.rs:207-213 | Where pages are cut, and what was applied before the baseline, does not matter to the fold. |
| `GearState.FoldPerAircraft` | bindings/godot/src/model.rs:214-239 | Events of other aircraft interleaved between its own do not affect an aircraft. |
| `GearState.FoldIsScan` | bindings/godot/src/model.rs:207-240 | For one aircraft not despawned last, folding forward equals scanning backward. |
| `GearState.RemoteAgreesIff` | bindings/godot/src/model.rs:207-240 | The agreement condition for pages that cover the store up to a cursor, in both directions. |
| `GearState.SampledOrSpawnedInformed` | core/src/cursor.rs:829-869 | An aircraft sampled at the baseline, or spawned after it, meets the condition. |
| `GearState.LeftOutDisagrees` | core/src/cursor.rs:829-869 | A concrete aircraft with a spawn and a gear event but no state sample, left out of a baseline: the viewer has no gear for it, the history says down. |
| `GearTracker.GearEventTracker.CommandsToApply` | bindings/msfs/src/lib.rs:216-276 | The commands sent and the whole new tracker state, for every snapshot; a cursor that is not finite changes nothing. |
| `GearTracker.GearEventTracker.Retain` | bindings/msfs/src/lib.rs:246-253 | Keeps exactly the commands that differ from the one sent before them. |
| `GearTracker.LatestGearCommand` | bindings/msfs/src/lib.rs:279-289 | The reverse search finds the last gear command stored at or before the cursor. |
| `GearTracker.LiveCallResolves` | bindings/msfs/src/lib.rs:260-269 | A continued live call ends on the latest stored command whenever there is one, whatever arrived in between. |
| `GearTracker.ReplayCallResolvesIff` | bindings/msfs/src/lib.rs:240-253 | A continued replay call ends on the latest stored command if and only if a command was crossed or the last one sent is still the latest at the previous cursor. |
| `GearTracker.LateEventMissed` | bindings/msfs/src/lib.rs:240-253 | A concrete gear event appended behind a replay cursor that the next, continued call does not send although it is the latest stored. |
| `GearTracker.SimulatorFollowsStoreIff` | bindings/msfs/src/lib.rs:216-276 | Over every run of appends, clears, loads, releases and snapshots, with events appended anywhere: after each call the last command sent since the resynchronisation is the latest stored at the cursor if and only if no event appended behind the cursor of the replay being followed has overruled it since; and no command repeats the one sent before it. |
| `GearTracker.LiveNeverBehind` | bindings/msfs/src/lib.rs:228-269 | After every live call and every resynchronisation of a run the two agree without condition. |
| `GearTracker.ForgetsIff` | bindings/msfs/src/lib.rs:228-234 | Over every run of the bridge: the tracker starts afresh exactly when the snapshot is not of the aircraft, mode and revision of the previous one with a cursor not before its, whatever was appended, cleared or loaded in between. |
| `GearTracker.NeverRepeats` | bindings/msfs/src/lib.rs:240-269 | A snapshot that goes on from the previous one, in that sense, never sends first the command sent last. |
| `GearTracker.QuietCallSendsNothing` | bindings/msfs/src/lib.rs:240-269 | Where no command was crossed since the previous snapshot and the last one sent is the latest stored, it sends nothing, however often it is repeated and however far the cursor advances. |
| `GearTracker.FreshCallSends` | bindings/msfs/src/lib.rs:235-239 | A snapshot that does not go on sends the latest command stored at its cursor and nothing else. |
| `GearTracker.ReplayFollowsCommands` | bindings/msfs/src/lib.rs:240-253 | A replay snapshot that goes on leads the simulator through every command crossed since the previous one, in order, and sends nothing besides. |
| `GearTracker.BridgeAgreesWithViewerIff` | bindings/msfs/src/lib.rs:279-289 | The bridge's latest command at a cursor is the gear the viewer's scan (`GearState.LatestGearState`) shows there if and only if no spawn followed the last gear command; after a respawn the bridge still has the gear of the flight before, the viewer none. |
| `GearTracker.SimulatorFollowsStore` | bindings/msfs/src/lib.rs:216-276 | So they agree at every call of a run in which no gear event of the tracked aircraft is appended at or before the cursor of a replay being followed. |
| `Store.TimeSeriesStore.AppendState` | core/src/store.rs:200-233 | Inserts behind all samples not later; a timestamp that is not finite changes nothing; the vectors remain the stable sort of the arrivals. |
| `Store.TimeSeriesStore.AppendEvent` | core/src/store.rs:235-272 | The same for events, and a spawn that arrives replaces the configuration. |
| `Store.TimeSeriesStore.AppendTelemetry` | core/src/store.rs:275-313 | Accepted exactly for a finite timestamp, a known aircraft and a frame that fits its schemas; a refusal changes nothing. |
| `Store.FrameFitsIff` | core/src/store.rs:1112-1155 | A frame fits exactly when its stream is declared and the types of its values are, one by one, those of the first declaration. |
| `Store.FrameRefused` | core/src/store.rs:1112-1155 | It is refused for an unknown stream, for a value too few or too many, and for a single missing or mistyped value. |
| `Store.TimeSeriesStore.Clear` | core/src/store.rs:789-792 | Removes all contents. |
| `Store.AppendSorted` | core/src/store.rs:206-232 | Pushing at the end or inserting at the binary-search bound is one and the same insertion. |
| `Sorting.PartitionPointSplits` | core/src/store.rs:219-221 | The binary search finds the exact boundary of a partitioned vector. |
| `Sorting.StableSortSpec` | core/src/store.rs:200-272 | After any arrivals a vector is sorted and a permutation of them. |
| `Sorting.StableSortKeepsOrder` | core/src/store.rs:200-272 | Whatever part of the arrivals was in order keeps its order. |
| `Store.RepresentsSorted` | core/src/store.rs:200-313 | Every vector of every aircraft is sorted by timestamp. |
| `Store.ReverseScanIsLatestArrival` | core/src/store.rs:435-458 | A reverse scan finds the arrival with the greatest timestamp, the last to arrive among equals. |
| `Store.WindowIsFilter` | core/src/store.rs:511-529 | For start <= end the slice between the two binary-search bounds is the linear filter. |
| `Store.WindowPanicsIff` | core/src/store.rs:511-529 | The slice bounds cross, and the query panics, exactly when a timestamp lies strictly between end and start. |
| `Store.PageSafeIffOrdered` | core/src/store.rs:569-590 | A page query is safe on every store if and only if start <= end. |
| `Store.UpToIsPrefix` | core/src/store.rs:551-567 | The events up to a cursor are the prefix before the binary-search bound. |
| `Store.AtOrBeforeIsLatestArrival` | core/src/store.rs:416-432 | The state at or before a cursor is the last arrival at the greatest timestamp not after it. |
| `Store.SpawnedAtIsLatestLifecycle` | core/src/store.rs:435-458 | An aircraft is spawned at a cursor exactly when its latest lifecycle arrival at or before it is a spawn. |
| `Store.SpawnedAtInfinity` | core/src/store.rs:435-458 | At an infinite cursor the latest lifecycle arrival of all decides. |
| `Timeline.NearestAcross` | core/src/store.rs:675-720 | The reduction over the map finds the nearest stored timestamp beyond the probe, whatever the iteration order. |
| `Timeline.AdjacentGlobalTimestamp` | core/src/store.rs:663-730 | Returns the min(count, available)-th distinct timestamp strictly beyond the cursor, in either direction, and none for a cursor that is not finite or a zero count. |
| `Timeline.KthUnique` | core/src/store.rs:663-730 | That timestamp is unique. |
| `Timeline.StepThereAndBack` | core/src/store.rs:640-661 | Stepping k distinct entries one way and k back returns to the stored timestamp it left. |
| `Timeline.MergeInterleaves` | core/src/store.rs:605-631 | Sorting the concatenation of the aircraft's lists reorders none of them and loses nothing. |
| `Timeline.MergedOrder` | core/src/store.rs:626-630 | Of two merged events the earlier in the list has the smaller timestamp, or the same and an aircraft not greater. |
| `Timeline.InterleavingUnique` | core/src/store.rs:605-631 | The order and the per-aircraft contents determine the merged list. |
| `Timeline.GlobalEventsComplete` | core/src/store.rs:593-633 | The merged list holds exactly the in-range events of every aircraft, in (timestamp, aircraft) order with stored order on ties. |
| `Timeline.PagesTile` | core/src/store.rs:1163-1173 | Consecutive pages of any positive limit tile the list exactly, with a constant total. |
| `Timeline.GlobalPages` | core/src/store.rs:593-633 | For start <= end the global event query never panics, every page is a slice of the one merged list, and a limit that reaches the end returns all of it. |
| `Timeline.SortedIdsSpec` | core/src/store.rs:733-739 | The aircraft identifiers, each once, in increasing order. |
| `SaveLoad.SaveToDisk` | core/src/store.rs:820-987 | The tables hold every aircraft's rows, in some iteration order of the map. |
| `SaveLoad.LoadFromDisk` | core/src/store.rs:808-818 | Loading replaces the contents with what re-appending the rows yields, or changes nothing when a frame is rejected. |
| `SaveLoad.RoundTripIff` | core/src/store.rs:808-1069 | Save then load gives back the same store, for every iteration order, if and only if each aircraft's last stored spawn carries the schemas in force and all its frames fit them. |
| `SaveLoad.RoundTrip` | core/src/store.rs:808-1069 | In particular when all spawns of an aircraft carry the same schemas: no frame is rejected and nothing is lost. |
| `SaveLoad.LoadedIs` | core/src/store.rs:849-1069 | Exactly when a load succeeds, and what each aircraft is then. |
| `SaveLoad.RespawnUnloadable` | core/src/store.rs:1046-1069 | A respawn with other schemas makes a store that cannot be loaded again once saved. |
| `SaveLoad.EventSound` | core/src/store.rs:235-272 | Appending an event keeps what the round trip assumes of a store: no empty aircraft, a configuration exactly when spawned, every frame fitting some spawn. |
| `SaveLoad.TelemetrySound` | core/src/store.rs:275-313 | So does an accepted frame. |
| `SaveLoad.StateSound` | core/src/store.rs:200-233 | So does a state. |
| `SaveLoad.LoadSound` | core/src/store.rs:849-1069 | A successful load of what such a store saved is such a store, even where it differs from it. |
| `SaveLoad.StoreRunSound` | core/src/store.rs:200-1069 | At every moment of every run of appends, clears and loads of anything saved before, a store is sound in that sense. |
| `SaveLoad.RunRoundTripIff` | core/src/store.rs:808-1069 | So at every moment of every such run the round-trip equivalence holds for the store. |
| `Sorting.ReappendSorted` | core/src/store.rs:989-1069 | Re-appending a sorted vector row by row rebuilds it unchanged. |
| `Playback.PlaybackController.UpdateEffectiveCursor` | core/src/playback.rs:308-345 | The poll's effect on mode, cursor, anchor and revision. |
| `Playback.PlaybackController.TakeSnapshot` | core/src/playback.rs:123-128 | A snapshot polls with the store's current bounds. |
| `Playback.PlaybackController.ReturnToLive` | core/src/playback.rs:131-139 | Live mode at the end of the bounds under a new revision. |
| `Playback.PlaybackController.PausePlayback` | core/src/playback.rs:142-151 | Refused on an empty store, else paused at the effective cursor. |
| `Playback.PlaybackController.SeekTo` | core/src/playback.rs:154-165 | Refused for a timestamp that is not finite or an empty store, else paused at the clamped timestamp. |
| `Playback.PlaybackController.PlayFromCursor` | core/src/playback.rs:168-189 | Refused for a speed outside the limits or an empty store, else playing from the clamped cursor. |
| `Playback.PlaybackController.SetPlaybackSpeed` | core/src/playback.rs:192-203 | Refused for a speed outside the limits, else the new speed from the effective cursor on. |
| `Playback.PlaybackController.StepTimeline` | core/src/playback.rs:206-238 | Refused for a count outside 1..100 or an empty store, else paused at the count-th neighbouring timestamp. |
| `Playback.PlaybackController.ResetEmpty` | core/src/playback.rs:241-248 | Paused without a cursor under a new revision. |
| `Playback.PlaybackController.ResetAfterLoad` | core/src/playback.rs:251-259 | Paused at the start of the loaded bounds under a new revision. |
| `Playing.PlaysAtSpeed` | core/src/playback.rs:168-203 | Over every run: after a `Play` or `SetSpeed` that left the timeline playing, a poll with only polls and appends in between finds the cursor at the cursor of the command plus the speed last asked for times the time passed, stopped by the end of the bounds, and it plays on exactly before that end. |
| `Playing.PollAdvances` | core/src/playback.rs:329-343 | One poll of a playing timeline: the cursor is the smaller of the end and the cursor plus speed times the time since the anchor; before the end it plays on from there, at the end it pauses under a new revision. |
| `Playing.SpeedInForce` | core/src/playback.rs:168-203 | At every moment of a run the speed is the one the last accepted `Play` or `SetSpeed` asked for, the configured one before. |
| `Playing.SpeedWithinLimits` | core/src/playback.rs:297-306 | It never leaves the configured limits, whatever is asked for. |
| `Playing.CommandLands` | core/src/playback.rs:131-259 | Where each granted command leaves mode, cursor and speed, from the cursor a poll at its instant would have shown. |
| `Playing.SeekLandsNearest` | core/src/playback.rs:154-165 | A seek pauses at the one instant of the bounds nearest to the timestamp asked for. |
| `Playing.RevisionRisesIff` | core/src/playback.rs:123-259 | A new revision starts exactly with a granted command or replacement, or with the poll at which playing reaches the end. |
| `Playback.StepLandsOnNeighbour` | core/src/playback.rs:206-238 | A step lands exactly on the min(count, available)-th stored timestamp beyond the effective cursor, or stays when there is none: the clamp to the bounds never moves it. |
| `Playback.StepsCancel` | core/src/playback.rs:206-238 | Stepping some entries one way and as many back returns a paused timeline to the stored timestamp it left. |
| `Playback.PlayStartsIff` | core/src/playback.rs:168-189 | Play goes on playing exactly when the effective cursor is before the end; at the end it is paused again at once, under a second new revision. |
| `Playback.PollingIndependence` | core/src/playback.rs:308-345 | With fixed bounds any number of intermediate polls leaves the state the last poll alone would. |
| `Playback.IndependentIffCursorInBounds` | core/src/playback.rs:329-343 | For an armed playing state that law holds exactly when its cursor is not below the bounds. |
| `Playback.CursorNeverMovesBack` | core/src/playback.rs:123-259 | Over every run with appends, two moments of equal revision never show a present cursor moving back, and every present cursor lies in its bounds. |
| `Playback.RunPollsIndependent` | core/src/playback.rs:123-345 | At every moment of a run polling is independent. |
| `Playback.ApplyKeeps` | core/src/playback.rs:123-259 | Every command, poll, reset and append keeps the invariant and never goes back. |
| `Playback.StaleBoundsIff` | core/src/playback.rs:123-128 | A poll with bounds read before others were appended moves a cursor back without a new revision exactly when nothing is playing and those bounds end before it. |
| `Playback.StaleBoundsExample` | core/src/playback.rs:123-128 | For example live at 5, polled with bounds read when the store ended at 3: the cursor goes back to 3 under the same revision. |
| `Playback.ActiveTimeBounds` | core/src/store.rs:1278-1316 | The least and the greatest stored timestamp, whatever the iteration order. |
| `Playback.AppendExpandsBounds` | core/src/store.rs:1278-1316 | An append only ever widens the bounds. |
| `Gate.ActionsExclude` | core/src/management/gate.rs:30-64 | In every interleaving no ingestion action overlaps a paused action, and paused actions exclude each other. |
| `Gate.DisabledExactlyWhilePausing` | core/src/management/gate.rs:49-64 | The flag is false exactly while one maintainer is between its two stores, however many are queued. |
| `Gate.CallsAccounted` | core/src/management/gate.rs:30-46 | Ingestion calls returned are those executed plus those dropped, up to the calls just about to return. |
| `Gate.ExecutedIff` | core/src/management/gate.rs:30-46 | In every interleaving an ingestion call that has come back executed its action if and only if neither of the two checks it came to found a maintainer between its two stores. |
| `Gate.UndisturbedExecutes` | core/src/management/gate.rs:30-46 | So a call during which nobody pauses is never dropped. |
| `Gate.NestedCallReturns` | core/src/management/gate.rs:30-34 | An ingestion call made inside a paused action never blocks, touches no lock and is dropped. |
| `Gate.SomeThreadCanStep` | core/src/management/gate.rs:30-89 | While any call is in progress some thread can take a step: no deadlock. |
| `Gate.RunInv` | core/src/management/gate.rs:77-89 | The lock words name exactly their holders at every moment, including between the two releases of the resume guard. |
| `Operations.RecordList.PushRecord` | core/src/management/server.rs:146-150 | The eviction loop keeps the newest 128 records. |
| `Operations.RecordList.Mark` | core/src/management/server.rs:161-171 | Updates the first record with the identifier, or reports that there is none. |
| `Operations.OneUnfinished` | core/src/management/server.rs:126-181 | In every interleaving at most one record is unfinished, and it is the newest. |
| `Operations.NeverEvicted` | core/src/management/server.rs:161-181 | An operation's record is still listed for its last update, which therefore goes on to clear the active flag. |
| `Operations.OutcomeRecorded` | core/src/management/server.rs:152-181 | In every interleaving an operation whose work succeeds is recorded as succeeded and one whose work fails as failed: running until its thread records it, and exactly that for as long as the record is listed. |
| `Operations.RefusedIff` | core/src/management/server.rs:126-217 | A begin, or an action to run when idle, is refused exactly when some operation is under way. |
| `Operations.IdleActionsExclude` | core/src/management/server.rs:208-217 | An action run when idle overlaps neither an active operation nor another such action. |
| `Operations.ActiveHasOneOwner` | core/src/management/server.rs:126-181 | While the flag is set exactly one operation under way owns it. |
| `Operations.SomeThreadCanStep` | core/src/management/server.rs:126-217 | While any call or operation is in progress one of them can take a step. |
| `Lttb.Downsample` | core/src/management/series.rs:716-760 | The loops compute the sampled points of the index specification, for every input and threshold. |
| `Lttb.BucketInRange` | core/src/management/series.rs:724-746 | Every index read is in range, no averaged slice is empty, and the clamps never apply. |
| `Lttb.BucketsPartition` | web/src/stores/series.ts:155-156 | The candidate ranges partition 1..n-2. |
| `Lttb.SampledIsSubsequence` | web/src/stores/series.ts:139-177 | Exactly threshold points, both endpoints, at strictly increasing source indices. |
| `Lttb.ChosenIsFirstLargest` | core/src/management/series.rs:747-757 | Each inner point is the first of its bucket that spans the largest triangle with the point chosen before it and the next bucket's mean. |
| `Triangles.FlatIffCollinear` | core/src/management/series.rs:747-754 | The number compared for three points is zero exactly when they lie on one line. |
| `Triangles.BaseTimesHeight` | core/src/management/series.rs:747-754 | Over a horizontal base it is base times height. |
| `Triangles.AreaSymmetric` | web/src/stores/series.ts:163-168 | It does not depend on the order of the three points. |
| `Triangles.AreaMoved` | core/src/management/series.rs:747-754 | It does not change when the three points are moved together. |
| `Triangles.AreaSlides` | web/src/stores/series.ts:163-168 | It does not change when a point slides along a parallel to the side opposite to it. |
| `Triangles.SpikeKept` | core/src/management/series.rs:742-757 | A bucket keeps a point in line with the point chosen before it and the next mean only if all its points are. |
| `Triangles.MeanBalances` | core/src/management/series.rs:729-740 | The point averaged for a bucket is the one around which the deviations of its points sum to zero. |
| `Triangles.BucketsEven` | core/src/management/series.rs:723-746 | No two buckets differ by more than one point. |
| `Lttb.TimeOrderSurvives` | core/src/management/series.rs:716-760 | An input in time order stays in time order. |
| `Lttb.WithinLimitIff` | core/src/management/series.rs:717-719 | The result respects the limit if and only if the limit is at least three or was not exceeded. |
| `Lttb.TwoPointLimitIgnored` | core/src/management/series.rs:717-719 | For example three points asked for as two come back as three. |
| `Smoothing.LiveFrameBuffer.Push` | bindings/msfs/src/smoothing.rs:189-222 | The new samples, the result and the counter bumped; the counters sum to the pushes made. |
| `Smoothing.LiveFrameBuffer.Prune` | bindings/msfs/src/smoothing.rs:314-330 | The two loops compute the pruned suffix. |
| `Smoothing.LiveFrameBuffer.Render` | bindings/msfs/src/smoothing.rs:225-237 | The frame and the counter bumped; the counters sum to the frames rendered. |
| `Smoothing.LiveFrameBuffer.SmoothedFrame` | bindings/msfs/src/smoothing.rs:248-312 | The branches and the bracketing loop compute the frame specified. |
| `Smoothing.PrunedExact` | bindings/msfs/src/smoothing.rs:314-330 | Pruning keeps exactly the samples within the count and the age, the two newest whatever their age. |
| `Smoothing.PushKeeps` | bindings/msfs/src/smoothing.rs:189-222 | After any push timestamps increase strictly, the count is within the limit, the oldest is within the age or at most two remain, and an accepted sample is the newest. |
| `Smoothing.InsideIsInterpolated` | bindings/msfs/src/smoothing.rs:288-312 | A target inside the buffer always finds its two neighbours, so the fallback behind the scan is unreachable and the frame stands at the target. |
| `Smoothing.InterpolatedBetween` | bindings/msfs/src/smoothing.rs:337-347 | Every interpolated component lies between its neighbours. |
| `Smoothing.ExtrapolatedBounded` | bindings/msfs/src/smoothing.rs:268-277 | Every extrapolated component overshoots the newest sample by at most the last segment's difference, at a time within the limit. |
| `Smoothing.ComponentsOnTheLine` | bindings/msfs/src/smoothing.rs:337-347 | Interpolated or extrapolated, every component lies on the straight line through its two samples, which is followed for one segment past the later one and no further. |
| `Smoothing.MissingComponents` | bindings/msfs/src/smoothing.rs:386-542 | A scalar that only one sample has finite is that one's and never not a number; a vector that cannot be interpolated is the later one's, else the earlier one's. |
| `Smoothing.HeldIsStored` | bindings/msfs/src/smoothing.rs:255-287 | A held frame is a stored sample as it came: the oldest for an instant before it, else the newest. |
| `Smoothing.LatestShowsPushed` | bindings/msfs/src/smoothing.rs:225-246 | Without smoothing, what is rendered after a sample was accepted, or replaced the newest, is that sample. |
| `Smoothing.SteadyLatency` | bindings/msfs/src/smoothing.rs:248-312 | When the newest sample took `latency` to arrive, the frame shows the instant `latency` and the configured delay before the present, whichever sample is the newest. |
| `Smoothing.FramesAdvanceIff` | bindings/msfs/src/smoothing.rs:248-312 | While no sample arrives frames move forward with the clock, except exactly from an extrapolated frame to one past the limit. |
| `Smoothing.FramesStepBack` | bindings/msfs/src/smoothing.rs:248-312 | For example two samples extrapolated to 1.5 and then held at 1. |
| `Smoothing.PushStepsBackIff` | bindings/msfs/src/smoothing.rs:189-312 | A frame rendered after an accepted sample steps back behind the one shown before exactly when that one is ahead of the oldest sample kept and of the new target, or, where the new sample is held, ahead of that. |
| `Smoothing.TimelyPushStepsBackIff` | bindings/msfs/src/smoothing.rs:189-312 | After a sample no later behind its timestamp than the one before it, frames step back exactly when the frame before was extrapolated past the new sample and that one is held. |
| `Smoothing.LateSampleStepsBack` | bindings/msfs/src/smoothing.rs:189-312 | For example a sample half a second late pulls the frame from 1.5 back to 1.1. |
| `MergePoints.Merge` | web/src/stores/series.ts:196-228 | The loop yields the one strictly increasing list with the resolved value at every timestamp, repeated timestamps included. |
| `MergePoints.MergeUnique` | web/src/stores/series.ts:196-234 | The specification determines the result. |
| `MergePoints.MergeIsUnion` | web/src/stores/series.ts:196-234 | Its timestamps are the union of both sides'. |
| `MergePoints.MergedAsArrived` | web/src/stores/series.ts:201-234 | In terms of the points as they arrived, finite or not and in whatever order: at every timestamp the merge has the value the finite points there resolve to, in their order of arrival, and a point there exactly when one of them is. |
| `MergePoints.SharedTakesPreferred` | web/src/stores/series.ts:221-224 | Without repeated timestamps a shared one takes the preferred side's value. |
| `MergePoints.MergeAgainIff` | web/src/stores/series.ts:196-234 | Merging the same list again changes nothing if and only if no repeated timestamp upsets the balance. |
| `MergePoints.MergeIdempotent` | web/src/stores/series.ts:196-234 | In particular when neither list repeats a timestamp. |
| `MergePoints.RepeatedFlips` | web/src/stores/series.ts:230-234 | A concrete repeated timestamp whose value changes on the second merge. |
| `MergePoints.ComputeStats` | web/src/stores/series.ts:236-248 | Minimum, maximum, last value and end points, each attained; nothing for an empty list. |

## Left out

- Sockets, tokio tasks, HTTP and WebSocket routes, configuration files, command lines: plumbing around the modelled state machines.
- Protobuf, Parquet, Arrow and JSON encoding: payloads are opaque byte sequences, saved files are row lists, and encoding is taken to succeed and to decode to what was encoded.
- Pages that fail to encode, and a new handshake of a live subscriber's address between ticks: they break the numbering and end in removal, so the delivery theorem is about an uninterrupted session in one server epoch.
- Room.RunInvariant: clearing or loading the store and the playback reset that follows it are one step, as are reading the playback and the store in a tick.
- The race between taking a playback snapshot and querying the store: a tick sees one store, and `Playback.StaleBoundsIff` is about the cursor alone.
- The aircraft list inside a cursor frame and the freshness of live states: a frame is its numbers, its watermark and its cursor.
- Trimming subscribers beyond the configured maximum, and the requested rate: removal ends the run, and the frame interval is an input of each tick.
- Wire identifiers of single events inside a page, and the reason text of a reset.
- Wrap-around of 64-bit counters, rounding of doubles, and NaN beyond the guards on finite timestamps; bucket widths and interpolation are exact.
- Sessions.SessionState.CleanupExpired: is the sweep that nothing interrupts; what may come between its halves is `Sessions.SweepKeepsIndexedIff`, outside the runs of the room.
- Frames.ShownFrameGearIff: a frame shown after later pages have been applied, or sent before the timeline was replaced, is shown with the gear of those pages; nothing is claimed of it.
- CatchingUp.RoomCatchesUp: not on a network that fixes the playback revision, which a poll at the end of a replay raises.
- Locks of the store, the playback controller and the sessions: their operations are taken as atomic. Weaker memory orderings than sequential consistency are not modelled for the gate.
- Gate.CallsAccounted: an ingestion call whose action panics never returns, so it is neither executed nor dropped.
- An ingestion call nested inside an ingestion action, and maintenance nested inside either: the source does neither.
- Waiting for idleness (`wait_idle`) and the broadcast of notifications: they read the modelled flag.
- Smoothing.InterpolatedBetween: speaks of the vector and the scalar that stand for the fields interpolated alike; attitude, which is interpolated on the sphere, and propulsors, which are first matched by identifier, are outside the modelled state.
- Smoothing.ExtrapolatedBounded: the same holds for extrapolation.
- The timestamp and error text of an operation record, and session names: decided by reading one branch.
- Selecting an aircraft for the simulator, workspace files, profile and schema validators, catalogues of series: easy members around the modelled ones.

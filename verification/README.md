# Verification of the Kinesis Video Streams PIC upload path

A Dafny model of the platform-independent producer code for Amazon Kinesis Video Streams, and of the
consumer, session table and frame generator that drive it. What is modelled is what keeps a recording
intact when connections come and go: the window of packaged frames, the send pointer into it, the queue of
upload sessions, the header that every new session has to begin with, the timecode bases that must not mix
inside a session, the acknowledgements that come back, and the control plane that opens sessions.

| file | what it models |
|---|---|
| `Arithmetic.dfy` | 64-bit arithmetic and clock units |
| `ViewItems.dfy` | a content-view item: bytes, header, flags |
| `ContentView.dfy` | the window as a value: eviction, boundary search, rollback rule, limits |
| `TimestampSearch.dfy` | the bisection that finds the item of an acknowledgement |
| `RollingView.dfy` | the ring buffer that implements the window, as a class over an array |
| `Upload.dfy` | the upload state machine: put, connect, read, terminate, acknowledge, stop |
| `FragmentAcks.dfy`, `ErrorAcks.dfy` | acknowledgements by timestamp, and error acknowledgements |
| `UploadStream.dfy` | the stream object: it owns the ring, updates its fields in place, and refines those steps |
| `Handover.dfy`, `SessionEnd.dfy`, `TrimOrder.dfy` | what a read does to the other sessions, how a session ends, and in which order sessions are let go |
| `FrameTimes.dfy` | which frames are stored, and with which times |
| `Recovery.dfy` | header theorems over all runs |
| `TimecodeBases.dfy`, `MixedBases.dfy` | one timecode base per upload session, over all runs, and exactly when |
| `WindowLimits.dfy` | the window's limits over all runs |
| `Delivery.dfy`, `Drain.dfy` | one session of a stopped stream, and draining it through successor sessions |
| `Coverage.dfy` | which items a drain delivers and which a reconnect skips |
| `Stalls.dfy` | when a stopped stream gets stuck |
| `Witnesses.dfy`, `StallWitnesses.dfy`, `AckWitnesses.dfy` | short runs from the start on which a promise fails |
| `AckSchedule.dfy`, `Consumers.dfy` | the acknowledgement scheduler: runs as values, and the consumer object |
| `SessionTable.dfy` | the session table and the instrumented allocator |
| `Producer.dfy` | the frame generator |
| `ControlPlane.dfy` | the stream's control-plane state machine |

`dafny verify dfyconfig.toml` checks everything.

## How the model is put together

Every API call is one atomic step. A run is a sequence of events from the initial state; the main results
are about all runs. Where the code works in place (the ring buffer, the stream, the consumer, the session
table, the generator, the state machine) there is a class whose methods have the loops of the source, and
each method is proved to compute the step function that the run theorems are about. The stream object works
on the ring object, so its rollbacks and evictions are the ring's own. The surroundings appear
as event parameters: buffer sizes, times, results, headers the generator produces, the rollback target (any
index of the window, so that the safety results do not depend on replay arithmetic), and which of several
equally early acks a priority queue offers.

The cluster times inside an item are relative to its *timecode base*; the generator opens a new base
whenever it is reset. An *owed header* is the debt that a dropped session leaves: the next session to send
media must begin with a fresh header.

## Where the code does less than its design

Each of these is a theorem about the code as it is; where a promise holds under a condition, the theorem
named states that condition.

- The header length is stored in sixteen bits, so stripping restores an item only for shorter headers
  (`ViewItems.HeaderRoundTrip`).
- A session can carry two timecode bases. Markers are lost when frame-wise eviction removes a base boundary
  right behind the item being sent, and when a frame that was to open a base is older than the view's last:
  the generator has moved on by then (`TimecodeBases.PutKeepsMarkers`, with runs in
  `Witnesses.EvictionMixesBases` and `RejectedRebaseMixesBases`); and an acknowledgement that trims past the
  pointer cuts the current item off (`TimecodeBases.PersistedBased`, `Witnesses.OvertakingAckMixesBases`).
  Otherwise it depends on how sessions are read and connections end: `MixedBases.OneBaseIff` is exact, and
  `Witnesses.OutOfTurnMixesBases` and `UnknownDropMixesBases` are runs.
- Frame-wise eviction of a window that is only the item being sent moves the tail past the head; that item's
  storage then has no owner, and the next item counts as sent (`ContentView.TrimConserves` is exact,
  `StallWitnesses.SentItemSqueezedOut` is a run).
- An owed header is lost when a used session is dropped while another is live, when its item is evicted, and
  when an acknowledgement trims past it; nothing else loses it (`Recovery.StepKeepsDebt`, with the runs
  `Witnesses.DropBesideLosesHeader`, `EvictionLosesHeader` and `OvertakingAckLosesHeader`).
- A rollback from a drained view looks at a slot left over from a trimmed item, which can suppress the replay
  (`ContentView.ReplaySuppressedIff`, reached in `RollingView.StaleSlotSuppressesReplay`).
- The window can span more than its duration limit (`ContentView.AddItemSpan` is exact,
  `Witnesses.GapExceedsDuration` is a run; without gaps `WindowLimits.DurationBounded` holds).
- A stopped stream need not drain: with relative fragment times it does so only from the first base
  (`Drain.DrainStopped` is exact), and once no item is left that a session may begin with, nothing is ever
  sent again (`Drain.DrainAll`, `Stalls.BeginsIff` and `StuckIff` are exact;
  `StallWitnesses.EvictionStrandsStopped` and `BoundaryStrandsRelative` are runs).
- A reconnect can skip items that were not sent (`Coverage.ReconnectSkips` is exact,
  `StallWitnesses.ReconnectSkipsBoundary` is a run), and without acknowledgements the end-of-stream tag can be
  cut (`Stalls.TagSentIff` is exact, `StallWitnesses.BoundaryCutsTag` is a run).
- An acknowledgement carries the time its fragment begins at, which is also when the frame in front ends; the
  search may find that one, and the fragment then is not marked or not trimmed
  (`TimestampSearch.GaplessFound`, `FragmentAcks.ReceivedMarksIff` and `PersistedTrimsIff` are exact,
  `AckWitnesses.AckLandsInFront` is a run).
- An error acknowledgement can mark the base boundary a replaying session should stop at
  (`ErrorAcks.ErrorFences` is exact, `AckWitnesses.ErrorMixesBases` is a run).
- A missing stream that may not be created is described for ever on a stream set to recover
  (`ControlPlane.MissingStreamNeverEnds`); a timeout on opening the upload is refused by the state table
  (`ControlPlane.PutTimeoutRefused`), and after another failure the upload is not opened again
  (`ControlPlane.FailedPutNotReopened`).
- A session opened with an override over a live one leaks that one's buffer (`SessionTable.ClearedMemory`),
  and an end of fragment or of the stream without an open fragment queues acks
  without a time (`AckSchedule.InvalidFragmentIff`).
- The 32-bit frame index of the generator can lose the key frame after an end of fragment when it overflows
  (`Producer.EofrAlignsIff`).

## Model

| member | source | states |
|---|---|---|
| `ViewItems.HeaderRoundTrip` | src/client/src/Stream.c:2290-2413 | Adding a header and stripping it again gives the item back exactly (bytes, flags, data offset) if and only if the header length fits the sixteen bits it is stored in. |
| `ViewItems.AddHeaderOk` | src/client/src/Stream.c:2137-2288 | A fixed-up item has exactly one header in front of its old bytes and is no base boundary. |
| `ViewItems.StripHeaderOk` | src/client/src/Stream.c:2290-2413 | A stripped item has no header left and is no stream start. |
| `ContentView.TrimCounts` | src/view/src/ContentView.c:606-700 | Eviction accounts for every item, keeps the head and evicts something from a window of two or more; it keeps the window well formed if and only if there is something to evict besides the item being sent. |
| `ContentView.TrimConserves` | src/view/src/ContentView.c:606-700 | For every frame, the owners of its storage before eviction are those held plus those handed to the remove callback, if and only if there is something to evict besides the item being sent, or the leftover slot holds the same frame. |
| `ContentView.TrimIsLeast` | tst/client/StreamApiFunctionalityTest.cpp:299-450 | Frame-wise eviction removes one item; fragment-wise eviction removes the shortest prefix that drops something and leaves a fragment start next, if there is one. |
| `ContentView.TrimReports` | src/view/src/ContentView.c:626-661 | What is handed over is, in order, the evicted items but the one being sent; frame by frame each counts as dropped, and fragment-wise exactly those at or behind the send pointer do. |
| `ContentView.TrimOfSentItem` | src/view/src/ContentView.c:632-644 | With nothing to evict but the item being sent, what the slot behind it was left with is handed over as dropped, and the window is empty in front of the pointer. |
| `ContentView.PassesUntil` | src/view/src/ContentView.c:632-672 | Frame by frame the tail passes one item, and the one being sent if that is the oldest; fragment-wise it stops at the first item behind what it drops first that begins a fragment, or at the head. |
| `ContentView.TrimLeaves` | src/view/src/ContentView.c:675-700 | What stays is the items behind those passed, and in front of them the item being sent if it was passed, with the times of the last slot passed; the pointer stays or goes behind what was passed. |
| `ContentView.FragmentStop` | src/view/src/ContentView.c:606-700 | The fragment-wise eviction stops at the least slot after a drop that starts a fragment, or empties the window. |
| `ContentView.NextIndex` | src/client/src/Stream.c:2451-2478 | The next item to send is the first one not marked to be skipped; all before it are. |
| `ContentView.NextBoundary` | src/client/src/Stream.c:2419-2446 | A session begins on the first fragment start or end that is not to be skipped; there is none before it. |
| `ContentView.SessionBegins` | src/client/src/Stream.c:2419-2446 | That item starts or ends a fragment and is not marked to be skipped, and no item before it does without being marked. |
| `ContentView.SameBoundary` | src/client/src/Stream.c:2419-2446 | The place a session begins depends only on which items from there on a session may begin with. |
| `ContentView.BoundaryAppend` | src/client/src/Stream.c:2419-2446 | A new frame does not change where the next session begins, once there is such a place. |
| `ContentView.RollbackRuleUnique` | src/view/src/ContentView.c:270-350 | The declarative rollback rule has at most one answer, so the backward search is determined by it. |
| `ContentView.ReplaysOnlyUnacknowledged` | src/view/src/ContentView.c:270-350 | With acknowledgement-driven replay no fragment that was acknowledged as received is replayed. |
| `ContentView.ReplaySuppressedIff` | src/view/src/ContentView.c:270-350 | Nothing is replayed exactly when nothing lies behind the pointer, no time is to be replayed, the slot under the pointer ends the search, or the nearest fragment start behind it is acknowledged or missing. |
| `ContentView.ReplayTarget` | src/view/src/ContentView.c:270-350 | The pointer goes to the nearest fragment start behind it that is at least the replay duration older than the slot it is on, or, cut short by an acknowledged fragment start, to the one after that; with neither, to the oldest in view or nowhere; and then past skipped items. |
| `ContentView.ReplaysDuration` | src/view/src/ContentView.c:285-322 | By time alone the replay begins at the nearest fragment start that is the replay duration old, and with none that old at the oldest in view. |
| `ContentView.AddItemConserves` | src/view/src/ContentView.c:447-491 | Adding keeps the item limit and the count of items held and removed; per frame what was held plus the new item is what is held plus what was removed, if and only if the item being sent is not squeezed out of a full window of its own. |
| `ContentView.AddItemEvictsIff` | src/view/src/ContentView.c:447-524 | An add evicts if and only if the window holds items and as many as it may or for as long as it may, and the new item comes last. |
| `ContentView.SpanIs` | src/view/src/ContentView.c:705-743 | The span of a gapless window is its frame count times the frame duration. |
| `ContentView.AddItemSpan` | src/view/src/ContentView.c:447-524 | For any frames the span after an add runs from the first slot the eviction keeps, told from the view before, to the end of the new item; so it is within the limit exactly when that is. |
| `ContentView.AddItemKeepsDuration` | tst/client/StreamApiFunctionalityTest.cpp:299-450 | For gapless frames of one duration an add keeps the span below the limit plus one frame, and within the limit when the duration divides it. |
| `RollingView.SlotIsModulo` | src/view/src/Include_i.h:22-25 | The slot of an index is the index modulo the slot count. |
| `RollingView.SlotsDistinct` | src/view/src/Include_i.h:22-25 | Indices of one window never share a slot. |
| `RollingView.RollingContentView.constructor` | src/view/src/ContentView.c:14-57 | A new view is an empty window with the given limits. |
| `RollingView.RollingContentView.GetNext` | src/view/src/ContentView.c:143-177 | Returns the item at the send pointer and advances it, or reports that there are no more and changes nothing. |
| `RollingView.RollingContentView.GetItemAt` | src/view/src/ContentView.c:182-201 | Succeeds exactly for the indices the window holds, with that item. |
| `RollingView.RollingContentView.SetCurrentIndex` | src/view/src/ContentView.c:249-265 | Moves the send pointer exactly when the index lies between tail and head. |
| `RollingView.RollingContentView.SetItem` | src/view/src/ContentView.c:182-201 | A write through the pointer given out changes that item of the window and no other. |
| `RollingView.RollingContentView.TrimTail` | src/view/src/ContentView.c:567-604 | The window from the index on remains; every passed item is handed over once, oldest first, reported as dropped exactly if it was not sent. |
| `RollingView.RollingContentView.TrimTailItems` | src/view/src/ContentView.c:606-700 | Refines the eviction on windows in every case; the ring stays well formed if and only if there is something to evict besides the item being sent, and otherwise hands over what the slot behind the window was left with. |
| `RollingView.RollingContentView.KeepStreaming` | src/view/src/ContentView.c:675-694 | The tail moves over the passed slots and the pointer out of them; the ring stays well formed exactly if no more slots are passed than there are. |
| `RollingView.RollingContentView.RetainAtTail` | src/view/src/ContentView.c:681-693 | The item being sent survives eviction in the last evicted slot, with that slot's times. |
| `RollingView.RollingContentView.DropFragment` | src/view/src/ContentView.c:646-672 | The loop passes exactly the slots, and removes exactly the items with exactly the drop reports, of the fragment-wise rule, which `ContentView.TrimReports` and `PassesUntil` explain. |
| `RollingView.RollingContentView.CheckAvailability` | src/view/src/ContentView.c:493-524 | Room is reported exactly when the window is empty, or below the item limit and the duration limit. |
| `RollingView.RollingContentView.AddItem` | src/view/src/ContentView.c:447-491 | Succeeds exactly for a nonempty item not older than the head; the new window and the removed items are those of the rule on windows in every case, the leftover slot's item included when the item being sent is squeezed out. |
| `RollingView.RollingContentView.FindItem` | src/view/src/ContentView.c:203-224 | The loop finds the item of the bisection, and its upper end never falls below zero. |
| `TimestampSearch.FoundSpans` | src/view/src/ContentView.c:845-879 | With the items in order the bisection finds one that spans the time if and only if there is one, and otherwise one next to the gap the time falls into. |
| `TimestampSearch.GaplessFound` | src/view/src/ContentView.c:845-879 | On a gapless window the time an item begins at finds it if and only if it is the oldest or the bisection of the indices comes to it before it comes to the one in front; otherwise that one is found. |
| `FragmentAcks.AcksAreSteps` | src/client/src/StreamEvent.c:905-930 | Acknowledgements by timestamp are steps of the upload protocol. |
| `FragmentAcks.ReceivedMarksIff` | src/client/src/Stream.c:2677-2700 | On a gapless window the received acknowledgement of an item marks it if and only if the bisection comes to it first. |
| `FragmentAcks.PersistedTrimsIff` | src/client/src/Stream.c:2702-2817 | And the persisted acknowledgement of a fragment lets it go if and only if the same holds; otherwise trimming stops in front of it. |
| `RollingView.RollingContentView.RollbackCurrent` | src/view/src/ContentView.c:270-350 | The new send pointer is the one the rollback rule determines, which `ContentView.ReplayTarget` tells from duration, times and acknowledgements; the rest of the window is untouched. |
| `RollingView.StaleSlotSuppressesReplay` | src/view/src/ContentView.c:285-326 | A ring filled, read to its end and trimmed by one acknowledged frame: a rollback of any length by acknowledgements leaves the pointer, although an unacknowledged fragment lies behind it. |
| `RollingView.RollingContentView.SearchBack` | src/view/src/ContentView.c:285-326 | The backward search meets the rollback rule. |
| `Upload.StripCursor` | src/client/src/Stream.c:2290-2413 | Stripping the current item leaves a spent item spent, the cursor a copy of the view's item, and the window's ends and pointer alone. |
| `Upload.Take` | src/client/src/Stream.c:1376-1447 | The item taken becomes the current one, as a copy of the view's. |
| `Upload.OnePass` | src/client/src/Stream.c:1314-1488 | A pass of the send loop keeps the pointers in range and the current item a copy of the view's, never overfills the buffer, and makes progress. |
| `Upload.Fill` | src/client/src/Stream.c:1314-1488 | The send loop terminates, and touches only pointers, sessions and the end-of-stream tracker. |
| `Upload.FixUp` | src/client/src/Stream.c:2137-2288 | The reconnect fix-up leaves no current item and keeps the window's ends. |
| `Upload.Read` | src/client/src/Stream.c:1183-1625 | A read keeps the pointers in range and the current item a copy of the view's. |
| `Upload.TrimUpTo` | src/client/src/Stream.c:2735-2817 | Trimming to the boundary behind a persisted fragment keeps the head and the items from the new tail on, and moves the pointer only forward. |
| `Upload.PersistedAck` | src/client/src/Stream.c:2735-2817 | An acknowledgement changes at most its own session, and trims, to whichever boundary was found, only as `TrimOrder.TrimsInOrder` says. |
| `TrimOrder.TrimsInOrder` | src/client/src/Stream.c:2727-2817 | However many sessions there are, the view is trimmed to the boundary if and only if the acknowledgement is for a session that is not terminated and a time in view, and every session in front is terminated or has its last acknowledgement. |
| `TrimOrder.FinishesInOrder` | src/client/src/Stream.c:2766-2785 | The acknowledged session is let go if and only if it waits for just this acknowledgement and every session in front is through; the others keep all they have. |
| `TrimOrder.HeldBack` | src/client/src/Stream.c:2727-2752 | One session in front that is not through holds the trim back. |
| `TrimOrder.RunHoldsBack` | src/client/src/Stream.c:2727-2752 | Over every run in which a session is not through nothing leaves the view, whatever acknowledgements come for the sessions behind it, as long as frames find room. |
| `Upload.StepSound` | src/client/src/Stream.c:746-1178 | Every API call keeps the send pointer inside the window and the current item a copy of the view's. |
| `FrameTimes.StoredIff` | src/client/src/Stream.c:823-1066 | A frame with bytes is stored if and only if it is packaged and not decoded before the view's last item; one that is packaged and late moves only the generator, and any other changes nothing. |
| `FrameTimes.StoredItem` | src/client/src/Stream.c:846-1066 | The item stored is the frame with its own decoding and presentation times, its header exactly if it opens a timecode base, and the marker exactly if the view was not empty; an end of fragment begins in both clocks where the last item ends. |
| `FrameTimes.GeneratorMoves` | src/client/src/Stream.c:846-915 | Packaging a frame opens a base exactly on the first key frame and on one the generator was reset for, and moves the cluster exactly on a key frame. |
| `FrameTimes.ShownIsFound` | src/client/src/Stream.c:1056-1066 | Once a frame is stored, an acknowledgement for the time it is shown is put down to it, or to an item in front that is still shown then; without gaps that is the one that ends there. |
| `FrameTimes.ReorderedStored` | src/client/src/Stream.c:1056-1066 | A run of four frames shown out of decoding order: they are stored as they are decoded, and one decoded out of order is refused. |
| `UploadStreams.UploadStream.constructor` | src/client/src/Stream.c:100-130 | A new stream owns a fresh, empty ring and no session, and owes nothing. |
| `UploadStreams.UploadStream.NextBoundaryItem` | src/client/src/Stream.c:2419-2446 | Taking items from the ring ends behind the first one a session may begin with, or at the head. |
| `UploadStreams.UploadStream.NextUnskippedItem` | src/client/src/Stream.c:2451-2478 | Taking items from the ring ends behind the first one not to be skipped, or at the head. |
| `UploadStreams.UploadStream.BeginItem` | src/client/src/Stream.c:1386-1390 | The item just taken from the ring becomes the current one, its acknowledgement cleared in the ring too. |
| `UploadStreams.UploadStream.ResetCurrentStreamStart` | src/client/src/Stream.c:2290-2413 | Takes a fix-up header off the current item in the ring, if the ring still holds it, also after the pointer was rolled back. |
| `UploadStreams.UploadStream.BeginFirst` | src/client/src/Stream.c:1376-1395 | The pass that begins a session, on the ring, is that of the send function. |
| `UploadStreams.UploadStream.BeginNext` | src/client/src/Stream.c:1396-1447 | The pass that goes on from a spent item, on the ring, is that of the send function. |
| `UploadStreams.UploadStream.GoOnto` | src/client/src/Stream.c:1427-1446 | On to the item taken; a stream start ends the session before it. |
| `UploadStreams.UploadStream.EndOfItems` | src/client/src/Stream.c:1408-1426 | Past the last item a live stream waits and a stopped one ends the session. |
| `UploadStreams.UploadStream.StageHeader` | src/client/src/Stream.c:2185-2288 | The header goes on the first item from the pointer on that a session may begin with, unless that has one; with no such item it is deferred and the ring is untouched. |
| `UploadStreams.UploadStream.StreamStartFixup` | src/client/src/Stream.c:2137-2288 | After the ring's rollback the fix-up leaves the state of the fix-up function, and tells whether the header is deferred. |
| `UploadStreams.UploadStream.ResumeConnection` | src/client/src/Stream.c:1207-1240 | An owed rollback goes where the ring's own search says, and is settled unless the header is deferred. |
| `UploadStreams.UploadStream.GetStreamData` | src/client/src/Stream.c:1183-1625 | A read has exactly the state, bytes and status of the read step, for the rollback target the ring's search determines. |
| `UploadStreams.UploadStream.Put` | src/client/src/Stream.c:746-1178 | A put has exactly the state of the put step: the generator moves on even when the ring refuses the item. |
| `UploadStreams.UploadStream.PackageItem` | src/client/src/Stream.c:846-1011 | The item a frame becomes, an end of fragment with times from the last item in the ring. |
| `UploadStreams.UploadStream.SeekBehind` | src/client/src/Stream.c:2752-2766 | The pointer goes behind the next boundary after the item that is not the start of a persisted fragment. |
| `UploadStreams.UploadStream.TrimRing` | src/client/src/Stream.c:2745-2817 | Trims the ring to the boundary found behind the item, and puts the pointer back only if its old place is still in the ring. |
| `UploadStreams.UploadStream.FragmentReceived` | src/client/src/Stream.c:2677-2700 | Marks the item the ring's search finds for the time, if the session is live and the time in view. |
| `UploadStreams.UploadStream.FragmentPersisted` | src/client/src/Stream.c:2702-2817 | A persisted acknowledgement has exactly the state of its step, with the item and the boundary the ring's searches find. |
| `UploadStreams.UploadStream.MarkBack` | src/client/src/Stream.c:2844-2855 | Marks exactly the items in front that are not older than the start time, up to the first that is. |
| `UploadStreams.UploadStream.MarkFragment` | src/client/src/Stream.c:2859-2898 | Marks the item and those after it up to the next that begins or ends a fragment, where the pointer goes. |
| `UploadStreams.UploadStream.FragmentError` | src/client/src/Stream.c:2819-2925 | An error acknowledgement moves the pointer, marks the fragment unless it is to be sent again, and ends the current session. |
| `ErrorAcks.MarkedIff` | src/client/src/Stream.c:2841-2899 | An item gets marked if and only if it is of the refused fragment from the found item on, or before it with nothing older than the start time between. |
| `ErrorAcks.ErrorPoints` | src/client/src/Stream.c:2833-2899 | The pointer goes to the item when it is to be sent again, and otherwise to the next item that starts or ends a fragment, or to the head. |
| `ErrorAcks.ErrorChanges` | src/client/src/StreamEvent.c:862-940 | An error for a session that is unknown or terminated, or with nothing in view, changes nothing; any other is put down to its time, or to the oldest item when that is out of view, and ends the first session that is not over. |
| `ErrorAcks.BeginsBehind` | src/client/src/Stream.c:2888-2894 | A session that is to begin anywhere in what was marked begins behind it, as if the search had started there. |
| `ErrorAcks.ErrorOwesHeader` | src/client/src/Stream.c:2915-2921 | When the session that ends is the only live one a header is due, to be sent again or not. |
| `ErrorAcks.ErrorFences` | src/client/src/Stream.c:2841-2899 | From every window with its base boundaries marked, an error keeps every change of base behind an item that stops a session if and only if what it marks does not lie between two bases with no stream start behind. |
| `ErrorAcks.GoesOver` | src/client/src/Stream.c:2451-2478 | From every such state the session goes on over the marked items with media of the other base. |
| `UploadStreams.UploadStream.FindSession` | src/client/src/Stream.c:2483-2509 | Finds the first session with the handle. |
| `UploadStreams.UploadStream.AnyActive` | src/client/src/Stream.c:2514-2541 | Tells whether some session is not terminated. |
| `UploadStreams.UploadStream.SendEosPart` | src/client/src/Stream.c:1340-1375 | Refines the end-of-stream pass, with the wait for the last persisted acknowledgement. |
| `UploadStreams.UploadStream.CopyMedia` | src/client/src/Stream.c:1448-1487 | Refines the pass that copies what fits. |
| `UploadStreams.UploadStream.SendLoop` | src/client/src/Stream.c:1314-1488 | The loop computes the outcome of the send function, whatever the buffer size. |
| `UploadStreams.UploadStream.ServeSession` | src/client/src/Stream.c:1251-1488 | Refines the part of a read that depends on the session's state. |
| `UploadStreams.UploadStream.HandOver` | src/client/src/Stream.c:1559-1591 | Refines the hand-over to the next session. |
| `Handover.ReadKeepsQueue` | src/client/src/Stream.c:1559-1608 | A read of a session the stream does not have touches none, and any other leaves the queue as it is but for the session read. |
| `Handover.ReadEndsOtherIff` | src/client/src/Stream.c:1559-1591 | Another session keeps all it has, or only ends: if and only if the stream is stopped with the pointer at the head, nothing being sent and no tag, the session read is through, and the other is the first one waiting. |
| `Handover.WaitsUnlessEnded` | src/client/src/Stream.c:1559-1591 | Over every run of calls about other sessions, one that waits keeps waiting if and only if none of them is a read that ends it so. |
| `SessionEnd.TagEnds` | src/client/src/Stream.c:1340-1375 | A session sends what fits of its tag, and with room left behind it ends: at once if the stream does not wait for acknowledgements or it has its last one, and otherwise to wait for that. |
| `SessionEnd.EndsWithTag` | src/client/src/Stream.c:1396-1447 | A session that has sent its last item, with a stream start next or the stream stopped, sends the tag from its beginning, unless that item ended a fragment. |
| `SessionEnd.ReadBegins` | src/client/src/Stream.c:1448-1475 | The acknowledgement a session waits for in the end is that of the last fragment it has sent anything of, read by read. |
| `SessionEnd.ReadReports` | src/client/src/Stream.c:1251-1350 | A read of an unknown session is aborted, one of a session that is over says so, one that waits for its last acknowledgement says that, and any other fills the buffer if and only if it reports success. |
| `SessionEnd.NoMoreIsAll` | src/client/src/Stream.c:1376-1426 | When a session is told that there is no more, the pointer is at the head and no item is being sent; on a stopped stream that comes only without any item to begin with. |
| `UploadStreams.UploadStream.RetireSession` | src/client/src/Stream.c:1594-1608 | Refines the retirement of a terminated session and the connection reset that may follow. |
| `UploadStreams.UploadStream.StreamTerminated` | src/client/src/StreamEvent.c:660-830 | The imperative termination has exactly the state of the termination step. |
| `Recovery.NoUndeliverableHeader` | tst/client/StreamRecoveryFunctionalityTest.cpp:59-88 | In every reachable state an item with a header is one a session can begin with; every stream start has exactly one header and no other item has any. |
| `Recovery.NoDoubleHeaderSent` | tst/client/StreamStartBoundaryFunctionalityTest.cpp:136-216 | Over every run no item is sent with two headers, and none but a stream start with one. |
| `Recovery.ReconnectRestoresItem` | tst/client/StreamStartBoundaryFunctionalityTest.cpp:136-216 | An item that got a header on reconnect is restored exactly once it is sent and passed; a genuine base boundary keeps its own. |
| `Recovery.PassingStrips` | src/client/src/Stream.c:1396-1410 | Going on from a sent item strips a fix-up header from it and changes no other item behind the pointer, nor a base boundary. |
| `Recovery.OpeningBytes` | tst/client/StreamRecoveryFunctionalityTest.cpp:89-94 | A chunk that opens with a header begins with the EBML identifier. |
| `Recovery.ReadPaysDebt` | tst/client/StreamRecoveryFunctionalityTest.cpp:1844-1931 | A read with a header owed sends that header before any other media and then owes none, unless its session retired as the last one with something left; or it sends no media and leaves it owed; while it is deferred nothing is sent. |
| `Recovery.ReadOpensIff` | tst/client/StreamRecoveryFunctionalityTest.cpp:1673-1718 | The first media of any read begins with a header if and only if one was due. |
| `Recovery.FirstSentOpensIff` | tst/client/StreamRecoveryFunctionalityTest.cpp:1673-1842 | Over every run the first media bytes sent are a header if and only if one is due at that moment. |
| `Recovery.StepKeepsDebt` | tst/client/StreamRecoveryFunctionalityTest.cpp:1595-1680 | Any other call keeps an owed header if and only if it is not one of three losing calls, each told from the state before. |
| `Recovery.PersistedKeepsDebt` | src/client/src/Stream.c:2702-2817 | A persisted acknowledgement loses a placed header if and only if its trimming steps over it with no other header next. |
| `Recovery.StoredKeepsStaged` | tst/client/StreamRecoveryFunctionalityTest.cpp:1803-1842 | Eviction keeps a placed header next to be sent if and only if it does not step over it. |
| `Recovery.OwedHeaderIsSentFirst` | tst/client/StreamRecoveryFunctionalityTest.cpp:1673-1842 | Over every run that starts with a header owed, with any idle sessions, reconnects, rollback targets, evictions and empty reads, the first media bytes are that header, and until then it stays owed. |
| `Recovery.DropOwesHeader` | src/client/src/StreamEvent.c:708-771 | Dropping the only live session that was used, or an unknown one, or resetting, leaves a header owed. |
| `Recovery.DropConnection` | src/client/src/StreamEvent.c:708-788 | What the end of a connection leaves owed, told from the sessions and the pointer: nothing in front of a base boundary on a stopped stream, a rollback for an unknown session or the last live one that was used, none for a used one beside a live one, and what was owed before for one never used. |
| `Recovery.ResetConnection` | src/client/src/StreamEvent.c:697-707 | A reset ends every session and owes a rollback, but for a stream stopped in front of a base boundary. |
| `Recovery.RetireOwesHeader` | src/client/src/Stream.c:1594-1608 | When the last live session ends with something left to send its successor owes a header; otherwise only the session goes. |
| `Recovery.ClearedDebtLosesHeader` | tst/client/StreamRecoveryFunctionalityTest.cpp:1720-1750 | If the owed rollback were cleared, the next session would go on in the middle of an item, from every such state. |
| `Recovery.DropBesideLiveSession` | src/client/src/StreamEvent.c:722-745 | With a rollback owed, the first media any session reads after a drop begins with the header if and only if the dropped session was unused or unknown, or no other was live. |
| `TimecodeBases.PassBased` | tst/client/StreamStartBoundaryFunctionalityTest.cpp:6-20 | A pass of the send loop stays in the timecode base it is in, or ends the session. |
| `TimecodeBases.FillOneBase` | src/client/src/Stream.c:1314-1488 | All media of one call is in one base, the session's own if it has one. |
| `TimecodeBases.StoredChain` | src/view/src/ContentView.c:606-700 | Storing a frame keeps exactly the first items of the bases marked, if and only if its eviction strands no base. |
| `TimecodeBases.StoredLink` | src/view/src/ContentView.c:606-700 | Storing a frame keeps the item being sent connected to its base, if and only if its eviction does not move the pointer into the middle of another. |
| `TimecodeBases.PutKeepsMarkers` | src/client/src/Stream.c:823-1064 | The marker invariant survives a put, stored or not, if and only if its eviction strands no marker and it is not a frame that opens a base and is refused by the view. |
| `TimecodeBases.PersistedBased` | src/client/src/Stream.c:2702-2817 | It survives a persisted acknowledgement if and only if the trimming does not cut the current item off from its base, which only overtaking the pointer can do. |
| `TimecodeBases.DropCarries` | src/client/src/StreamEvent.c:708-788 | A drop keeps every live session in its base if and only if the handle is known, no session that has sent is live, or the pointer is parked. |
| `TimecodeBases.ConnectCarries` | src/client/src/StreamEvent.c:498-572 | So does a new session if and only if its handle has not carried media before. |
| `TimecodeBases.StrandedSessionMixesBases` | src/view/src/ContentView.c:606-700 | From every stranded state the session goes on with media of another base. |
| `TimecodeBases.StepCarries` | src/client/src/Stream.c:1183-1625 | Every disciplined call keeps each live session in the base it has carried, and of the calls other than reads no other does. |
| `MixedBases.ReadMixes` | src/client/src/Stream.c:1183-1625 | Whatever went before and whichever session is read, a read keeps to the base its session has carried if and only if it sends nothing or its next item is in that base. |
| `MixedBases.OneBaseIff` | tst/client/StreamStartBoundaryFunctionalityTest.cpp:6-20 | Over every run that leaves no base unmarked, with sessions read in any order, handles used again and any connections ended, each session carries one base if and only if no read sends from an item of another base. |
| `TimecodeBases.OneBasePerSession` | tst/client/StreamStartBoundaryFunctionalityTest.cpp:6-20 | Over every disciplined run all media one upload session carries is in one timecode base. |
| `Witnesses.RejectedRebaseMixesBases` | src/client/src/Stream.c:823-1064 | A run of six calls: a rebased key frame older than the view's last is refused after the generator has moved on, and the session carries two bases. |
| `Witnesses.EvictionMixesBases` | src/view/src/ContentView.c:606-700 | A run of seven calls: eviction removes the base boundary next to the frame just sent, and the session carries two bases. |
| `Witnesses.OutOfTurnMixesBases` | src/client/src/Stream.c:1183-1625 | A run of eight calls: a newer session is read in the middle of an older one's base, which then carries two. |
| `Witnesses.UnknownDropMixesBases` | src/client/src/StreamEvent.c:711-713 | A run of six calls: the end of an unknown connection rolls the pointer back under the live session, which carries two bases. |
| `Witnesses.OvertakingAckMixesBases` | src/client/src/Stream.c:2702-2817 | A run of eight calls: an acknowledgement for what was not sent trims past the pointer, and the session carries two bases. |
| `Witnesses.DropBesideLosesHeader` | src/client/src/StreamEvent.c:722-745 | A run of ten calls: a session that read while the header was deferred is dropped beside another, which begins without a header. |
| `Witnesses.EvictionLosesHeader` | tst/client/StreamRecoveryFunctionalityTest.cpp:1803-1842 | A run of ten calls: the item with the placed header is evicted before it is sent, and the next session begins without one. |
| `Witnesses.OvertakingAckLosesHeader` | src/client/src/Stream.c:2702-2817 | A run of ten calls: an acknowledgement for what was not sent trims the placed header away. |
| `Witnesses.ClearedDebtWitness` | tst/client/StreamRecoveryFunctionalityTest.cpp:1720-1750 | A run of seven calls with an idle session reaches a state in which clearing the debt would lose the header. |
| `Witnesses.GapExceedsDuration` | src/view/src/ContentView.c:493-524 | Two frames with a gap: nothing is evicted and the window spans more than its limit. |
| `WindowLimits.WindowBounded` | tst/client/StreamApiFunctionalityTest.cpp:299-450 | Over every run the window never holds more items than its limit. |
| `WindowLimits.DurationBounded` | tst/client/StreamApiFunctionalityTest.cpp:299-450 | Over every run of gapless frames of one duration, with any reads, drops and acknowledgements, the window spans less than its limit and one frame, and no more than the limit if the duration divides it. |
| `WindowLimits.StoredSpan` | src/view/src/ContentView.c:447-524 | The span after any stored frame, told from the view before. |
| `WindowLimits.ReadFrames` | src/client/src/Stream.c:1183-1625 | A read changes no frame of the window but for headers and received flags. |
| `Delivery.FillDelivers` | src/client/src/Stream.c:1314-1488 | On a stopped stream, waiting for acknowledgements or not, the bytes a call sends are the front of what is pending, in order and once, and each stream start passed ends the session. |
| `Delivery.FinishingEnds` | src/client/src/Stream.c:1594-1608 | The session that has sent its last waits for its acknowledgement, or is retired: then the connection is reset exactly if it stopped in front of a stream start that is no base boundary. |
| `Delivery.SendSession` | tst/client/ClientTestFixture.h:628-676 | One session of a stopped stream sends what is pending up to the next stream start or the end, whatever the sizes of its reads, and is over there, waiting or retired. |
| `Drain.DropArmsReplay` | tst/client/StreamStartBoundaryFunctionalityTest.cpp:283-347 | Dropping the only used session arms the replay exactly when the stream is not stopped in front of a base boundary. |
| `Drain.RestsThere` | src/client/src/StreamEvent.c:775-788 | Dropped or retired in front of a stream start, the session leaves a rollback owed if and only if that is no base boundary. |
| `Drain.DrainStopped` | tst/client/StreamStartBoundaryFunctionalityTest.cpp:283-347 | With only base boundaries ahead the drain delivers every pending byte once and in order, by exactly one session per base, with or without acknowledgements; it comes to its end if and only if fragment times are absolute, or there is a stream-start time and no boundary ahead, and otherwise the account of what was sent and what is left is exact. |
| `Drain.SettledFirst` | src/client/src/Stream.c:1207-1240 | Settling the debt before the session is opened is the same as settling it in its first read. |
| `Drain.LessLeft` | src/client/src/Stream.c:2185-2288 | A session that ends in front of a stream start leaves fewer headers that can stop another, or as many and fewer stream starts ahead, wherever the rollback goes. |
| `Drain.DrainAll` | tst/client/StreamStartBoundaryFunctionalityTest.cpp:218-347 | From any stopped state, with any stream starts ahead, any rollbacks and any buffer sizes, waiting for acknowledgements or not, the drain comes to a stop, with nothing left if and only if a session can begin in every state it came to rest in; what it sent is what its sessions sent, one after the other. |
| `Drain.LastAckEndsSession` | src/client/src/Stream.c:1278-1295 | A session waiting for its last persisted acknowledgement returns nothing and changes nothing until that one comes, and ends with the read after it. |
| `Coverage.SendsWhole` | src/client/src/Stream.c:1314-1488 | The media of a session is the rest of the item it begins in and then every item up to the one it ends in front of, whole and in order. |
| `Coverage.ReconnectSkips` | src/client/src/Stream.c:2137-2288 | A reconnect skips an unsent item if and only if there is no item to begin with from the rollback's target up to it; a target behind it always does. |
| `Coverage.NoSkipIff` | src/client/src/Stream.c:2137-2288 | Where a session of a drain ended in front of an item, the next begins there or before if and only if its rollback does not go past that item. |
| `Coverage.BeginsAgain` | src/client/src/Stream.c:1264-1277 | And it can begin if the rollback does not go past; in front of a base boundary if and only if fragment times are absolute. |
| `Coverage.DrainCovers` | tst/client/StreamStartBoundaryFunctionalityTest.cpp:218-347 | By the end of each session of a drain whose rollbacks do not go past unsent items, every item up to where it ended has been sent whole, with its own body. |
| `Coverage.DrainDelivers` | tst/client/StreamStartBoundaryFunctionalityTest.cpp:218-347 | So a drain that comes to its end has delivered every item from where it began to the head of the view. |
| `Stalls.BeginsIff` | src/client/src/Stream.c:1264-1277 | The first read of a new session on a stopped stream delivers from where it begins if and only if it can begin: an owed rollback finds an item, or there is one and a stream-start time if those are relative; otherwise it sends nothing. |
| `Stalls.StepDead` | src/client/src/Stream.c:2137-2288 | On a stopped stream with no current item and none to begin with, no call of any kind sends anything or changes that. |
| `Stalls.StuckForever` | src/client/src/Stream.c:2137-2288 | With the rollback owed and no item left that a session may begin with, nothing is ever sent again, in any run from the next read on. |
| `Stalls.StuckIff` | src/client/src/Stream.c:2137-2288 | That is so if and only if no rollback, wherever it goes, lets a new session begin. |
| `Stalls.RelativeTimesStall` | src/client/src/Stream.c:1264-1277 | With relative fragment times and no stream-start time left, new sessions on a stopped stream get nothing, however many are opened and however often they read. |
| `Stalls.TagSentIff` | src/client/src/Stream.c:1340-1375 | Without acknowledgements a session that ends in front of a stream start sends all of its end-of-stream tag if and only if there is room for it in that call, and none after an end of fragment; it is retired either way. |
| `StallWitnesses.EvictionStrandsStopped` | src/view/src/ContentView.c:606-700 | A run of nine calls: the key frame is evicted while the frame behind it is sent, then the stream is stopped and its session dropped; two frames are left, and no run from there sends anything. |
| `StallWitnesses.BoundaryStrandsRelative` | src/client/src/Stream.c:1264-1277 | A run of seven calls: with relative fragment times the stream is stopped in front of a whole base, and no new session gets anything of it. |
| `StallWitnesses.ReconnectSkipsBoundary` | src/client/src/Stream.c:2137-2288 | A run of seven calls on a live stream: the session is dropped in front of a base boundary, and a rollback that does not move goes on behind it. |
| `StallWitnesses.BoundaryCutsTag` | src/client/src/Stream.c:1594-1608 | A run of four calls, after which a read with one byte of room retires the session with half of its tag sent. |
| `StallWitnesses.SentItemSqueezedOut` | src/view/src/ContentView.c:606-700 | A run of four calls: the next frame squeezes the item being sent out of the window, its storage has no owner, and the frame itself counts as sent. |
| `AckWitnesses.AckLandsInFront` | src/view/src/ContentView.c:845-879 | A run of six calls, after which the persisted acknowledgement of the third fragment is put down to the second, and the third stays. |
| `AckWitnesses.ErrorMixesBases` | src/client/src/Stream.c:2841-2899 | A run of six calls, an error for the first fragment of a base, and three more: the session that replays the one before goes on over it and carries two bases. |
| `AckSchedule.ChunkIndependent` | tst/client/MockConsumer.cpp:75-113 | However a walk over the view is split into calls, the same fragments are finished and the same one is left open. |
| `AckSchedule.OpenIff` | tst/client/MockConsumer.cpp:75-113 | A fragment is open after a walk exactly when one was opened and not closed since. |
| `AckSchedule.EachFragmentOnce` | tst/client/MockConsumer.cpp:75-113 | Over a well-formed range every fragment is finished exactly once and in order, but for the last one if it is still open. |
| `AckSchedule.OpenedAre` | tst/client/MockConsumer.cpp:85-95 | The fragments are those of the fragment starts in view that are not to be skipped, by their presentation time in milliseconds. |
| `AckSchedule.VisitIs` | tst/client/MockConsumer.cpp:85-101 | An item out of view or to be skipped counts for nothing, a fragment start finishes the fragment before it, and an end of fragment the one that is open. |
| `AckSchedule.InvalidFragmentIff` | tst/client/MockConsumer.cpp:96-107 | A read queues acks without a fragment time if and only if it walks over an end of fragment that closes nothing, or ends the stream with no fragment open. |
| `AckSchedule.InvalidInWalk` | tst/client/MockConsumer.cpp:96-100 | The walk alone finishes such a fragment if and only if some end of fragment closes nothing. |
| `AckSchedule.TimelineOrdered` | tst/client/MockConsumer.h:59-77 | All acks a walk queues are in order of due time, fragment after fragment, and none is due before the data is sent. |
| `AckSchedule.StagesInOrder` | tst/client/MockConsumer.h:59-77 | A fragment's buffering ack is due no later than its received ack, and that no later than its persisted ack. |
| `AckSchedule.TimelineHolds` | tst/client/MockConsumer.cpp:20-45 | Every finished fragment has all its acks in the train, at the times its place says. |
| `AckSchedule.DueTimes` | tst/client/MockConsumer.cpp:20-45 | The k-th fragment's acks are due each its delay after the one before, from the send time on, with the delays of the k fragments before it added. |
| `AckSchedule.TimelineAppend` | tst/client/MockConsumer.cpp:20-45 | The acks of a further fragment follow on where those before it end. |
| `AckSchedule.TimelineContents` | tst/client/MockConsumer.cpp:20-45 | Only finished fragments get acks, and persisted ones only with retention. |
| `AckSchedule.TimelineDistinct` | tst/client/MockConsumer.cpp:20-45 | With distinct fragment times every fragment has at most one ack of each kind. |
| `AckSchedule.AcksInOrder` | tst/client/MockConsumer.cpp:142-223 | Over every interleaving of reads, submissions, refused submissions and faults with a nondecreasing clock, acks are offered in order of due time and never before they are due. |
| `AckSchedule.AcksConserved` | tst/client/MockConsumer.cpp:75-246 | Over every run whatever was queued is still queued, was taken by the stream or was purged, each exactly once. |
| `AckSchedule.DueIsOffered` | tst/client/MockConsumer.cpp:185-201 | When an ack is due a submission offers one of the earliest. |
| `AckSchedule.PurgeTakesEarliest` | tst/client/MockConsumer.cpp:115-140 | A purge takes three acks of the fragment or all there are, and none later than one it leaves. |
| `AckSchedule.PurgeFrees` | tst/client/MockConsumer.cpp:115-140 | With one ack of each kind a purge leaves none of the fragment's. |
| `AckSchedule.FaultSilencesFragment` | tst/client/MockConsumer.cpp:225-246 | After the error ack for a queued fragment no normal ack for it is ever submitted in the rest of the run, if no fragment time is finished twice. |
| `AckSchedule.Throughput` | tst/client/MockConsumer.cpp:142-183 | Over every run the bytes fetched before a read are within the upload speed times the time passed, up to one tick per read. |
| `AckSchedule.ReadsAgainAt` | tst/client/MockConsumer.cpp:142-183 | After a read the next may begin exactly when its bytes are through at the upload speed, rounded down to a tick, if the stream still has data. |
| `AckSchedule.ReadLeaves` | tst/client/MockConsumer.cpp:142-183 | A read that is not due changes nothing; one that sent something has been walked up to the item being sent, that included once spent, and counts as a transfer. |
| `AckSchedule.IdleUntilSignal` | tst/client/MockConsumer.cpp:148-152 | Over every run without a signal nothing is fetched once the stream has said that it has no data or waits for acks. |
| `AckSchedule.LastTransferIs` | tst/client/MockConsumer.cpp:153-156 | Over every run the last transfer is the time of the last read that sent something. |
| `Consumers.AckConsumer.constructor` | tst/client/MockConsumer.cpp:3-18 | A new consumer has nothing queued, no open fragment and may read at once. |
| `Consumers.AckConsumer.EnqueueAckItem` | tst/client/MockConsumer.cpp:20-45 | Queues exactly the acks of the fragment and returns the time of the last one. |
| `Consumers.AckConsumer.CreateAckEvent` | tst/client/MockConsumer.cpp:75-113 | Queues exactly the acks of the fragments the walk finishes, and at the end of the stream of the open one; the walk goes on from there. |
| `Consumers.AckConsumer.PurgeAckItems` | tst/client/MockConsumer.cpp:115-140 | Removes the earliest matching acks, three or all there are, and no other. |
| `Consumers.AckConsumer.InitOldCurrent` | tst/client/MockConsumer.cpp:47-73 | Finds the greatest index up to the current one where a stream started, with every item between in the view; failure means there is none. |
| `Consumers.AckConsumer.TimedGetStreamData` | tst/client/MockConsumer.cpp:142-183 | Reads exactly when data is available and the last read has been sent, and is the read step of the schedule, its first walk beginning where the session's stream start is found. |
| `Consumers.AckConsumer.TimedSubmitNormalAck` | tst/client/MockConsumer.cpp:185-223 | Offers an earliest ack exactly if one is due and acks are enabled; it leaves the queue unless the stream refuses it. |
| `Consumers.AckConsumer.SubmitErrorAck` | tst/client/MockConsumer.cpp:225-246 | Faults the fragment of an earliest ack and purges its acks, exactly if the queue is not empty. |
| `SessionTable.AllocTracked` | tst/client/ClientTestFixture.h:126-136 | An allocation keeps the total equal to the sum of the live blocks, in 64 bits. |
| `SessionTable.FreeTracked` | tst/client/ClientTestFixture.h:158-171 | So does freeing a block. |
| `SessionTable.FreeUndoesAlloc` | tst/client/ClientTestFixture.h:146-171 | Freeing undoes plain and counted allocation, even where the counted size overflows. |
| `SessionTable.StreamingSession.constructor` | tst/client/StreamingSession.h:10-12 | A new table is empty. |
| `SessionTable.StreamingSession.AddNewConsumerSession` | tst/client/StreamingSession.cpp:3-14 | The handle is the override or the counter, which goes on from it; the new consumer owns one new buffer. |
| `SessionTable.StreamingSession.RemoveConsumerSession` | tst/client/StreamingSession.cpp:16-22 | Removes a session that is there and frees its buffer once. |
| `SessionTable.StreamingSession.ClearSessions` | tst/client/StreamingSession.cpp:24-31 | Removes all sessions, frees every buffer of the table once, and restarts the counter. |
| `SessionTable.StreamingSession.GetActiveUploadHandles` | tst/client/StreamingSession.cpp:44-66 | Returns exactly the handles that are not closed, ascending, and frees each closed consumer exactly once. |
| `SessionTable.StepOthers` | tst/client/StreamingSession.cpp:3-66 | Only opening a session over a live one adds to the blocks that belong to no session: the live one's buffer. |
| `SessionTable.ClearedMemory` | tst/client/StreamingSession.cpp:24-31 | After any run, clearing the sessions gives back all the memory they took if and only if no session was opened over a live one. |
| `SessionTable.HandlesNeverReused` | tst/client/StreamingSession.cpp:3-14 | Between clears, if overrides only move the counter forward, no handle is given out twice and no live session is replaced. |
| `SessionTable.GivenAre` | tst/client/StreamingSession.cpp:3-31 | Over every run the handles given out are the overrides, and otherwise each one more than the last, from zero at the start and after a clear. |
| `SessionTable.OpenedIs` | tst/client/StreamingSession.cpp:3-14 | A new session is under its handle, open, with nothing transferred and a block of its own of the size asked for; the others are untouched. |
| `SessionTable.EntryKept` | tst/client/StreamingSession.cpp:33-66 | A transfer sets the time of its session only, and a failure only closes it. |
| `SessionTable.FailedIsPolled` | tst/client/StreamingSession.cpp:44-66 | A session whose connection failed is deleted with its buffer by the next poll, and the open ones stay. |
| `SessionTable.GotKeepsOrder` | tst/client/StreamingSession.cpp:57-64 | With an advancing clock a data read keeps the last-transfer times in handle order if and only if no newer live session has got data. |
| `SessionTable.TransferTimesIncrease` | tst/client/StreamingSession.cpp:57-64 | Over every run that serves older sessions first with an advancing clock, last-transfer times increase with the handle. |
| `Producer.FrameProducer.PutOne` | tst/client/MockProducer.cpp:15-41 | Refines one put: a real frame, or an end of fragment that moves the index on. |
| `Producer.FrameProducer.TimedPutFrame` | tst/client/MockProducer.cpp:43-70 | Refines the timed put, with pacing and the end-of-fragment frame. |
| `Producer.EofrAlignsIff` | tst/client/MockProducer.cpp:21-24 | The frame after an end-of-fragment frame is a key frame if and only if the 32-bit index does not overflow on the way or the interval divides its range. |
| `Producer.Cadence` | tst/client/MockProducer.cpp:15-70 | Over every run without such an overflow the first frame and every frame after an end of fragment are key frames, and key frames are never more than an interval apart, also where the index wraps. |
| `Producer.KeyEvery` | tst/client/MockProducer.cpp:15-41 | Of a run without ends of fragment put by hand exactly every interval-th real frame is a key frame, as far as the 32-bit index goes. |
| `Producer.FragmentsEnd` | tst/client/MockProducer.cpp:43-70 | A timed producer that ends its fragments does so right before every key frame but the first and nowhere else; one that does not puts real frames only. |
| `Producer.DurationIs` | tst/client/MockProducer.cpp:3-13 | A frame lasts whole milliseconds, as many as fit a second as often as there are frames in it. |
| `Producer.TimestampsFollow` | tst/client/MockProducer.cpp:25-38 | The n-th real frame of any run is at n durations, in 64 bits. |
| `Producer.LivePace` | tst/client/MockProducer.cpp:43-61 | A live producer takes at least k durations for k + 1 frames. |
| `Producer.LiveRate` | tst/client/MockProducer.cpp:43-61 | So within any span it puts at most span / duration + 1 frames. |
| `Producer.PutsWhenDue` | tst/client/MockProducer.cpp:43-61 | Calls a duration apart put one frame each, and every call does if the producer does not follow the clock. |
| `ControlPlane.StreamMachine.Step` | src/state/src/State.c:151-224 | Refines one step: next state, acceptance, retry count, entry. |
| `ControlPlane.StreamMachine.Enter` | src/client/src/StreamState.c:719-859 | Refines the entry actions of the states. |
| `ControlPlane.StreamMachine.IterateStreamStateMachine` | src/client/src/StreamState.c:46-65 | The loop ends after at most three steps with the iterated machine. |
| `ControlPlane.StreamMachine.CallResult` | src/client/src/StreamEvent.c:185-493 | Refines the result events of the setup calls, with the exception for tags. |
| `ControlPlane.StreamMachine.StreamTerminated` | src/client/src/StreamEvent.c:794-820 | Refines the restart after a terminated upload. |
| `ControlPlane.AnswerProgresses` | src/client/src/StreamState.c:197-349 | Any answer reports a failure, ends the setup or lowers the measure of states and retries left, but for a missing stream that may not be created on a recovering stream. |
| `ControlPlane.SetupEnds` | tst/client/StateTransitionFunctionalityTest.cpp:151-231 | Every setup becomes ready or reports a failure within six answers for each state to come, whatever the answers. |
| `ControlPlane.AnswerLeads` | src/client/src/StreamState.c:197-402 | Every answer of a setup call, with retries left, leads where the design says: on, again, through or to a failure, with exactly the calls of that. |
| `ControlPlane.ErrorReported` | src/client/src/StreamEvent.c:185-493 | A result that is an error of its own is reported and changes nothing. |
| `ControlPlane.DeletedRefused` | src/client/src/StreamState.c:197-240 | A machine that has learned that its stream is being deleted refuses to go on. |
| `ControlPlane.PutLeads` | src/client/src/StreamState.c:405-452 | A good result of opening the upload has the stream send, a refused authorization asks for a new token, and any other that is no error starts the setup over. |
| `ControlPlane.EndsWithoutRecovery` | src/client/src/StreamState.c:455-531 | A stream that is not set to recover reports how its upload ended, unless that was an orderly end or a timeout with nothing to send. |
| `ControlPlane.FrameOpens` | src/client/src/StreamEvent.c:794-820 | A setup that is under way goes on when an upload ends meanwhile, and a frame opens the upload of a machine that waits for one and of no other. |
| `ControlPlane.MissingStreamNeverEnds` | src/client/src/StreamState.c:228-235 | In the excepted case no number of answers is enough: the stream is described once more for each. |
| `ControlPlane.UnknownAnswer` | src/client/src/StreamEvent.c:577-638 | A state calls again until its retries are spent; then it fails, but tagging moves on to the endpoint. |
| `ControlPlane.RetriesExhausted` | tst/client/StateTransitionFunctionalityTest.cpp:151-231 | A state survives exactly as many unknown results as it has retries left, with one call for each. |
| `ControlPlane.PutTimeoutRefused` | src/client/src/StreamState.c:405-411 | A timeout on opening the upload is refused by the state it asks for, and the machine stays. |
| `ControlPlane.FailedPutNotReopened` | src/client/src/StreamState.c:757-799 | After any other failed opening the setup runs again, but does not open the upload again, whether or not there is something to send. |
| `ControlPlane.DriveOpens` | src/client/src/StreamState.c:719-799 | A well answered setup makes exactly the calls of its path and ends with the upload opened, or waits for something to send. |
| `ControlPlane.Restarts` | src/client/src/StreamState.c:455-531 | A terminated upload restarts at the state its result class says, and waits for a frame exactly after a timeout with nothing to send. |
| `ControlPlane.RecoveryCalls` | tst/client/StateTransitionFunctionalityTest.cpp:233-310 | Over any sequence of recovered terminations the endpoint and token calls are exact functions of the result classes, and endpoint calls do not exceed token calls. |

## Left out

- MKV generation: the bytes of a frame are opaque; only "begins with an EBML header" (section 8.1 of RFC 8794) and the lengths matter. The generator supplies headers that begin so and frame bodies that do not; it refuses frames only for being older than its last cluster, and times are not rounded to its timecode scale.
- Heaps (AIV, system, hybrid): an allocation holds the bytes of its item and never fails.
- Storage pressure and offline mode: the loop that waits for or makes room in storage before a put, and the rollback of offline streams, which is one of the arbitrary rollback targets.
- Error acknowledgements as events of a run: one may put the pointer back in front of the item being sent, or mark that item, so that the two no longer match until the next rollback. `ErrorAcks` has the operation and what it does to the window.
- UploadStreams.UploadStream.FragmentError: does not set the generator's flags that make it skip the rest of an unfinished fragment; the time items are marked from is a parameter.
- UploadStreams.UploadStream.FragmentPersisted: which items carry a persisted flag is a parameter, and times are not converted from the generator's timecode scale.
- Fragment and event metadata, the metadata tracker before the end-of-stream tag, tags, codec private data, token rotation timing: shallow or time-driven branches.
- Connection staleness detection, diagnostics, metrics, callbacks to the application, logging, mutexes and condition variables.
- Upload handle states NEW and ERROR: a new handle is READY at once and errored handles are terminated ones.
- Upload.Read: the rollback target is a parameter, so that the run theorems hold for every target; `UploadStream.GetStreamData` uses the one the ring's search determines.
- MixedBases.OneBaseIff: is for runs that leave no base unmarked; which puts and acknowledgements do is exact call by call (`TimecodeBases.PutKeepsMarkers`, `PersistedBased`).
- TimecodeBases.OneBasePerSession: the discipline it asks for is sufficient; `MixedBases.OneBaseIff` has the exact condition on the reads, and the conditions on the other calls are exact call by call (`TimecodeBases.StepCarries`).
- Recovery.OwedHeaderIsSentFirst: holds for runs without one of the three losing calls, which are exact step by step; `FirstSentOpensIff` is the statement for all runs. A first session whose stream start was evicted before it was sent owes no header.
- Drain.DrainStopped: delivery once is stated for base boundaries ahead; with other stream starts ahead the replay sends items again, and `Coverage.DrainDelivers` states that each is sent, for rollbacks that do not go past unsent items (`Coverage.NoSkipIff`).
- WindowLimits.DurationBounded: is for gapless frames of one duration; `StoredSpan` is exact for every put.
- ContentView.AddItemKeepsDuration: is for gapless frames of one duration; the exact span for all frames is `AddItemSpan`.
- Upload.PersistedAck: the boundary is a parameter, any index of the window, so that the run theorems hold for every one; `UploadStream.FragmentPersisted` uses the one the ring's searches find.
- 64-bit overflow of indices, handles and times, other than where a wrap is written out (window durations, rollback times, the byte total, frame times and the frame index).
- AckSchedule.Throughput: the send delay is the floor of an exact quotient instead of a double, with a positive speed.
- Consumers.AckConsumer.TimedGetStreamData: what the stream returned is a parameter, and so is which items carry the flag of a stream start.
- ControlPlane.Terminated models a termination that asks for a new session; the client state machine, synchronous result callbacks inside a state's own call, retry wait times and authentication failures of the client are not modelled.
- Timer-driven intermittent producer callbacks, the frame order coordinator, CRC32, duration parsing and JSON acknowledgement parsing.

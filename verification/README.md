# The PTY daemon's output coordinate, proved

The daemon holds one shell per session. Every byte a session prints has an absolute coordinate, and consumers
hold coordinates across reconnects, evictions, segment rotations, crashes and restarts of the daemon. The
daemon is right only if a coordinate always means the same byte. These modules model the parts that have to
agree for that, and prove it, together with the concurrency around them:

| module | what it is about |
|---|---|
| `Base` | shared types, and the contract's sizes with only what the daemon relies on assumed about them |
| `Ring` | the retained window, its leases and its readers |
| `Delivery` | one connection's delivery: cursor loop, channel and batching, beside any ring operations |
| `Observer` | the bounded event queue that coalesces output and gaps |
| `Wakeup` | pump, acknowledgements and detaches around the one-slot resume channel |
| `Presence` | renderer generations, displaying observers and the abandonment clock |
| `Store` | the two output segments, their rotation and every point a crash can cut it |
| `Feed` | the lossy queue in front of the store, an account of every byte lost, and what a loss does to the coordinates of what is stored |
| `Restore` | standing a session up from its record and output, and what the outcome means |
| `Lifetime` | a session over any number of daemon processes, each losing output and killed anywhere |
| `HiddenLosses` | runs in which a loss is hidden and a session answered full |
| `Locks` | the store's lock discipline, for any number of operations |
| `Records` | concurrent updates of one record, removal, and the two-phase stop write |
| `Ledger` | the revisioned process inventory and its streams |
| `Monitor` | starts, notifications and the end of a session racing over the ledger |
| `ProcessTree` | the breadth-first search for a session's descendants |

What the source updates in place is a class here, each method proved against a pure function on a datatype
of the same fields. The lemmas are about those functions. What the source runs concurrently is a transition
function over one step at a time (`Next`), with an invariant every step keeps and theorems over all runs. A
step that is not enabled leaves the state as it is, so a run is any interleaving. `history` in a lemma is
everything the session ever printed.

A crash is a process crash: a rename is one step, and bytes a write accepted are there afterwards.

## Findings

Where the code does less than its comments say, the code is what is modelled. The exact condition is proved,
and where it can fail there is a concrete run.

- `consumeLease` deletes the lease before it trims (ring.go:132-138), so the cursor it answers can already be
  behind the floor. A read from it is lossless if and only if the cursor is inside the tail or another
  surviving lease holds it: `Ring.ConsumeMeaning`, `Ring.ConsumedCursorCanBePassed`.
- `markEnded` looks at the writer under one lock and writes the record under another (store.go:242-266). The
  record names the writer's segment afterwards if and only if an even number of rotations were published in
  between, or the writer had no file: `Records.MarkAgrees`, `Records.StaleMark`, `Records.StaleMeaning`. A restart
  on a stale segment moves every stored byte: `Lifetime.StaleMovesAll`.
- Losses move stored bytes to other coordinates. The record's boundary comes from the session (store.go:367)
  and the end from the boundary and a file's size, and neither is compared with where the stored output was
  before. From a whole store, an append keeps every byte at its coordinate if and only if its chunk begins at
  the derived end, which `append` could check and does not: `Feed.AppendKeepsWhole`. The output, and the ring
  stood up on it, answer each byte at its own coordinate if and only if what is read of it is whole:
  `Feed.OutputLabels`, `Restore.RingAnswers`, `Lifetime.RestartMovesNothing`.
- A full outcome does not see it. Full is answered if and only if no more is missing from the current segment
  than was printed after the mark (`Restore.OutcomeMeaning`). Output stored after the mark makes up for output
  lost before it (`Restore.LaterOutputHidesLoss`), and a rotation forgets what was lost before it
  (`Restore.RotationLabels`, `Restore.RotationHidesLoss`). `HiddenLosses.MaskedRun` and
  `HiddenLosses.RotatedRun` are runs of the two. The shutdown marks the record before it closes the
  feed (session.go:775-790), although feed.go:110-114 describes the other order.
- `adoptObserver` adds a display without clearing the detach stamp (session.go:832-834), and a session can then
  be ended as abandoned right after it was shown: `Presence.AdoptThenRemove` is the exact condition,
  `Presence.AdoptedSessionEndedEarly` a run.
- The release test of an acknowledgement can subtract a greater number from a smaller one and wrap
  (ring.go:255-259). `Wakeup.ReleaseTest` says exactly when, when it then refuses, and that the acknowledgement
  which releases is still to come; `Wakeup.ReleaseTestCanWrap` is a run. The pause test never wraps:
  `Wakeup.Backpressure`.
- `restore` repairs a coordinate that is behind its bytes (ring.go:58-62). It is reached if and only if the
  older half holds more than came before the current segment and that much is asked for
  (`Restore.RepairReached`). No accounted run leaves that (`Restore.AccountedIsBacked`). After a stale stop it
  takes a watermark above a segment's bound less one read (`Lifetime.RepairNeedsRoom`), and restore.go:86-87 puts
  the watermark at about an eighth of two bounds, so the repair is not reached.

## Model

| member | source | states |
|---|---|---|
| `Ring.Ring.constructor` | ring.go:43-48 | a new ring is empty at coordinate 0, with the contract's capacity when none is given |
| `Ring.VisitLeases` | ring.go:97-106 | in whatever order the leases are visited, each is judged against the window alone and the target is the least of the window and the surviving cursors |
| `Ring.TargetUnique` | ring.go:93-106 | that target is fixed by being a lower bound that is attained, so the order cannot show |
| `Ring.Ring.TrimLocked` | ring.go:91-112 | moves the floor to the target, never back, and drops exactly the bytes below it |
| `Ring.TrimMeaning` | ring.go:91-112 | a trim breaks exactly the leases behind the window and over the budget, and the floor ends where it was, at the window or at a surviving cursor |
| `Ring.TrimRetains` | ring.go:91-112 | more than the capacity is retained only while an unbroken lease sits at the floor; with no lease exactly the capacity is, once there is that much |
| `Ring.Ring.Restore` | ring.go:57-78 | keeps the newest bytes that fit, ending at the coordinate given |
| `Ring.RestoreOk` | ring.go:50-78 | a ring stood up on the tail of a history holds that history at its own coordinates |
| `Ring.Ring.Write` | ring.go:81-89 | appends, trims and answers the coordinate after the data |
| `Ring.Ring.TakeLease` | ring.go:114-123 | takes a lease at the coordinate asked for exactly when it is retained |
| `Ring.LeaseRoundTrip` | ring.go:114-139 | a lease taken in the retained range is consumed at the coordinate it was taken at; outside it is refused and the ring is as it was |
| `Ring.LeaseKept` | ring.go:91-139 | whatever else happens in between, consuming it answers that coordinate or that it is broken |
| `Ring.Ring.ConsumeLease` | ring.go:125-139 | answers the cursor, a broken lease or none, and trims without the lease |
| `Ring.ConsumeMeaning` | ring.go:125-139 | the original cursor is answered exactly when no trim broke the lease, everything from it is then retained, and a read from it after the trailing trim is lossless if and only if the tail or another surviving lease covers it |
| `Ring.DropFloor` | ring.go:132-138 | when the floor passes the cursor of a lease just dropped |
| `Ring.ConsumedOnce` | ring.go:125-146 | a lease is consumed or expired once, and the others stay at their coordinates |
| `Ring.ConsumedCursorCanBePassed` | ring.go:132-138 | a lease within its budget whose bytes are gone when its consumer reads |
| `Ring.Ring.ExpireLease` | ring.go:141-146 | drops the lease and trims |
| `Ring.Ring.End` | ring.go:150-155 | the session has ended, nothing else changes |
| `Ring.EndedNeverBlocks` | ring.go:148-155 | once ended, no read waits, whatever happens after |
| `Ring.Ring.Ack` | ring.go:230-236 | the acknowledged position only advances |
| `Ring.AckedIsFurthest` | ring.go:230-236 | over any run, the acknowledged position is the furthest acknowledged |
| `Ring.Ring.Read` | ring.go:190-212 | one pass of the blocking read |
| `Ring.ReadMeaning` | ring.go:190-212 | a read answers the history from the cursor, or from the floor when overtaken, up to the live edge, and blocks only there |
| `Ring.Ring.Paused` | ring.go:243-251 | holds exactly when at least the high watermark is outstanding, while no more is acknowledged than written |
| `Ring.Ring.Resumed` | ring.go:255-259 | releases exactly when at most the low watermark is outstanding; asked with a total already acknowledged past, only if the wrapped difference is that small |
| `Ring.ResolveMeaning` | ring.go:164-185 | resumed exactly when the coordinate is retained, otherwise restarted at the floor; with none, at the live edge |
| `Ring.StepOk` | ring.go:57-146 | every operation keeps byte k at coordinate k, every unbroken lease at or past the floor, the floor monotone, and the retained bytes bounded |
| `Ring.RunOk` | ring.go:57-146 | the same over any sequence of operations |
| `Delivery.Deliver` | stream.go:57-84 | the batching loop is the fold of its step over the events it selects |
| `Delivery.FoldMeaning` | stream.go:17-84 | the wire plus the open batch is what arrived, in order; an open batch is between hold and batch size with its deadline armed; a cut connection got a prefix |
| `Delivery.BatchSent` | stream.go:27-83 | a deadline on a connection that takes it sends all that is held; a full batch and one under the hold are sent at once, anything else waits with its deadline armed; a connection that breaks gets no more than it took |
| `Delivery.RingStepOk` | ring.go:80-112 | a write, trim, lease or end beside a delivery keeps what it has taken, and wakes its reader if it parked on what came |
| `Delivery.ReadStepOk` | stream.go:40-55 | the next slice begins where the last ended, or at the floor when that had passed it |
| `Delivery.RunOk` | stream.go:23-85 | both halves of the delivery's invariant over any interleaving |
| `Delivery.Fidelity` | stream.go:23-85 | the emitted ranges are increasing disjoint pieces of the history, skipping only up to a floor the ring has reached; wire, batch and what is underway are exactly the bytes taken; and no reader is parked on bytes it could have |
| `Delivery.NotOvertaken` | stream.go:40-55 | a reader the floor never passed gets the history from its start, whole |
| `Delivery.CatchesUp` | stream.go:40-83 | a read, a send, an arrival and a deadline later, a connection that takes what it is given has all the ring held, to its live edge |
| `Delivery.EndsSent` | stream.go:44-62 | at the end of a session the reader finishes and what was held is sent |
| `Observer.Observer.constructor` | observer.go:27-34 | an empty queue whose capacity is at least 1 |
| `Observer.Observer.PublishOutput` | observer.go:36-67 | joins the last output, is appended, or becomes a gap, by room and adjacency |
| `Observer.Observer.PublishGapLocked` | observer.go:69-81 | joins the last gap or is appended and counted |
| `Observer.Observer.Publish` | observer.go:104-112 | other events are appended unless closed |
| `Observer.Observer.Next` | observer.go:114-129 | takes the first event and its bytes off the count; none once closed and empty |
| `Observer.Observer.Close` | observer.go:131-136 | closes, keeping what is queued |
| `Observer.PublishKeepsCount` | observer.go:42-58 | the count is the queued output bytes and never exceeds the capacity |
| `Observer.OutputOk` | observer.go:36-67 | publishing contiguous output extends the tiling, whichever way it is queued |
| `Observer.OutputCarried` | observer.go:42-60 | output there is room for is carried whole, with no gap added |
| `Observer.OutputDropped` | observer.go:61-66 | output there is no room for is one gap that ends with its range |
| `Observer.AttachOk` | session.go:507-527 | the initial gap and retained prefix tile the source from its first byte |
| `Observer.AttachCarries` | session.go:507-527 | an observer whose capacity what is retained fits gets all of it |
| `Observer.AttachedRunTiles` | session.go:828-855 | for an observer attached or adopted at any time, delivered then queued events tile the source in order, each output carrying exactly its range, over any interleaving |
| `Observer.RunCarries` | observer.go:36-67 | over any run, the bytes carried are exactly those read when there was room, and a gap is added only by a read there was no room for |
| `Observer.RunNotices` | observer.go:92-112 | over any run, every resize, end and opening told to an open queue is delivered or queued, once, in order |
| `Observer.TakesDeliver` | observer.go:114-129 | as many takes as there are events deliver all of them, open or closed |
| `Observer.ClosedIsTold` | observer.go:131-136 | a closed queue is told nothing more |
| `Wakeup.NextOk` | session.go:310-347 | each step of pump, acknowledgement, attach and detach keeps that a parked pump is held or has a release coming |
| `Wakeup.AckMeaning` | session.go:582-589 | an acknowledgement acknowledges all it names that was written, and never less than before |
| `Wakeup.HeldExactlyWhenBehind` | session.go:339-347 | after a read the pump is held exactly when a renderer is attached and at least the high watermark is outstanding, and otherwise reads on |
| `Wakeup.AttachHolds` | session.go:362-417 | a renderer is attached from its attach until a detach that is its own or of the active one |
| `Wakeup.RunOk` | session.go:310-347 | the same over any interleaving |
| `Wakeup.NoLostWakeup` | session.go:339-347 | in every run of a new or a restored session: a pump parked on an empty slot has an attached renderer more than the low watermark behind, or a release still in flight; with no renderer, always a release |
| `Wakeup.WillReleaseDoes` | session.go:582-596 | the in-flight acknowledgement counted on does release, and no other step takes that away |
| `Wakeup.AckReleases` | session.go:582-596 | wherever the pump is parked, an acknowledgement that leaves no more than the low watermark outstanding wakes it |
| `Wakeup.DetachReleases` | session.go:387-417 | a detach gets a parked pump reading again |
| `Wakeup.ReapReleases` | session.go:650-654 | the end of the session wakes it |
| `Wakeup.Backpressure` | session.go:444-449 | in every run of a new or a restored session: acknowledged never passes written, and an attached renderer is owed at most what it attached behind by, or one below the high watermark, and one read |
| `Wakeup.ReleaseTest` | ring.go:255-259 | in every state and for every untested acknowledgement: its subtraction is the difference if and only if nothing acknowledged past its total since; then it is refused exactly while the wrapped difference is over the low watermark; and a parked pump within that watermark still has the acknowledgement that will release it |
| `Wakeup.ReleaseTestCanWrap` | ring.go:255-259 | a run from the start in which that subtraction wraps |
| `Presence.Session.AttachRenderer` | session.go:362-385 | takes the next non-zero generation and clears the stamp |
| `Presence.Session.DetachRenderer` | session.go:387-395 | only the current generation detaches, and stamps when nothing else shows the session |
| `Presence.Session.DetachActiveRenderer` | session.go:402-417 | detaches whichever renderer is attached, and says whether one was |
| `Presence.Session.Observe` | session.go:489-512 | a token is used once; a display clears the stamp |
| `Presence.Session.RemoveObserver` | session.go:534-547 | forgets the observer and its tokens, and stamps when it was the last display |
| `Presence.Session.SetDisplays` | session.go:560-579 | flips a display, clearing or starting the clock |
| `Presence.Session.AdoptObserver` | session.go:828-834 | binds the observer and adds its display without touching the stamp |
| `Presence.EndAbandoned` | session.go:659-677 | ends exactly the sessions abandoned since before the window, none when it is off |
| `Presence.HonestStep` | session.go:362-579 | a step keeps the stamp and the presence in agreement if and only if it is not an adopted display over a stamp; losing the last presence starts the clock then |
| `Presence.AbandonmentIsEarned` | session.go:426-436 | from any open, with any observers and tokens bound: what a sweep may end was shown to nobody and printed nothing from the deadline on |
| `Presence.AbandonedExactly` | session.go:426-436 | over any safe run, a sweep may end a session if and only if something showed it once, nothing has from the deadline on, and it printed nothing from then on |
| `Presence.RendererShows` | session.go:362-417 | the last renderer to attach shows the session until its own detach or one of the active renderer |
| `Presence.ObserverShows` | session.go:489-579 | an observer shows the session exactly as it last said, until it is removed, and no other is affected |
| `Presence.AdoptThenRemove` | session.go:828-834 | an adopted display, removed any time later, lets a sweep end the session though it was shown at or after the deadline, if and only if a stamp was there when it was adopted and that stamp and the last output are before the deadline and the removal is not |
| `Presence.NoAdoptIsSafe` | session.go:828-834 | runs without adoptions are all safe |
| `Presence.AdoptedSessionEndedEarly` | session.go:828-834 | one such run from the open on |
| `Presence.GenerationIs` | session.go:365-368 | the generation after any number of attaches, skipping zero at the wrap |
| `Presence.SupersededDetach` | session.go:387-394 | a superseded holder's detach changes nothing until the counter has gone all the way round |
| `Store.SegmentStore.OpenInto` | store.go:401-419 | refuses a segment outside the two, otherwise opens and measures it |
| `Store.SegmentStore.Roll` | store.go:378-398 | the rotation, each failure, and the disks a crash inside it can leave |
| `Store.SegmentStore.Ready` | store.go:355-363 | a closed writer reopens what the record names |
| `Store.SegmentStore.Prepare` | store.go:355-370 | rolls exactly when the chunk does not fit a segment that has something in it |
| `Store.SegmentStore.Write` | store.go:371-373 | a partial write keeps what was taken and reports it |
| `Store.SegmentStore.Append` | store.go:351-374 | the whole append, each failure, and every disk a crash inside it can leave |
| `Store.OutputIsTail` | store.go:423-455 | however much is asked for, the answer is the history's own tail ending at its end, and the two segments are within two bounds |
| `Store.TailsJoin` | store.go:438-454 | newest first and then the older half is one tail |
| `Store.AppendEffect` | store.go:351-374 | whatever fails, some prefix of the chunk joined the current segment or began the next, and the older half goes only for want of room |
| `Store.AppendSucceeds` | store.go:351-419 | with no fault every append succeeds, open writer or not and whatever is stored: all of the chunk is, the writer stays open, and the store moves on exactly when the chunk does not fit a segment with something in it |
| `Store.AppendedOk` | store.go:351-374 | a chunk appended where the history ends leaves the history and what was taken of it |
| `Store.RollCrashesHold` | store.go:378-398 | a rotation cut after closing, removing, renaming or creating keeps everything stored |
| `Store.AppendCrashSafe` | store.go:351-419 | however an append is cut, the disk holds the history and a prefix of the chunk, so the derived end is the number of bytes persisted |
| `Store.CrashIsFault` | store.go:351-419 | every disk a crash can leave is one that some fault at the same point leaves |
| `Store.EndIsCrash` | store.go:351-374 | the disks before and after an append are among those a crash inside it can leave |
| `Feed.StoreFeed.constructor` | feed.go:44-50 | an empty open feed |
| `Feed.StoreFeed.Offer` | feed.go:57-72 | accepts exactly when open and within the depth, and otherwise drops the whole chunk |
| `Feed.OfferMeaning` | feed.go:57-72 | a chunk is accepted exactly while the feed is open and all that is queued with it is within the depth; it then waits last, and a refused one changes nothing |
| `Feed.StoreFeed.Take` | feed.go:76-88 | hands over the oldest chunk; done once closed and empty |
| `Feed.StoreFeed.Close` | feed.go:118-126 | accepts nothing more and keeps what was accepted |
| `Feed.BeginOk` | store.go:140-147 | a created session is accounted for, with nothing missing |
| `Feed.NextAccounted` | feed.go:57-96 | each offer, drop, take, failed or partial append, rotation and stop mark keeps stored bytes in order, each with the coordinate it was printed at |
| `Feed.NextOk` | feed.go:57-96 | and the stop mark at or before what was printed |
| `Feed.RunOk` | feed.go:57-96 | the same over any run |
| `Feed.EndFallsShortByMissing` | store.go:451-454 | after any run: the last chunk sunk is past the derived end by exactly the bytes before it that the current segment should have and has not; the session is past it by exactly the bytes missing; and those are exactly the bytes on the way and the bytes lost |
| `Feed.LabelsTrue` | store.go:451-454 | in each segment, every stored byte is read at the coordinate it was printed at if and only if the one furthest from the boundary between the segments is |
| `Feed.OutputLabels` | store.go:423-455 | after any run with any losses, and however much is asked for: the output gives each byte at the coordinate it was printed at if and only if what is asked for of it is whole |
| `Feed.AppendKeepsWhole` | store.go:351-374 | from a whole store, an append that stores or moves anything leaves a whole one if and only if its chunk begins at the end the store derives |
| `Restore.WriteJoin` | restore.go:149-159 | a line break is written to the ring and offered to the store exactly when non-empty output did not end a line |
| `Restore.RestoreOne` | restore.go:81-189 | the outcome, ring, coordinate, feed and record of a restart, and what each failure leaves untouched |
| `Restore.RestoredAgreement` | restore.go:139-159 | whatever was lost before, the new session's coordinate is the derived end plus what waits in its feed |
| `Restore.RepairReached` | ring.go:58-62 | the output reaches back before coordinate 0 if and only if the older half holds more than came before the current one and that much is asked for |
| `Restore.AccountedIsBacked` | store.go:423-455 | no accounted run leaves such a store |
| `Restore.StandMeaning` | restore.go:139-159 | stood up on a disk that spans a history, the ring holds each byte of it at its coordinate, and the join is in the ring and the feed exactly when the history does not end a line |
| `Restore.RingAnswers` | restore.go:139-159 | the ring stood up after any run with any losses answers each coordinate with the stored byte that far from the end, and that is the byte printed there if and only if the output it was given is whole |
| `Restore.NoRelabelling` | restore.go:139-159 | with nothing lost, the new ring holds each byte of the history at its own coordinate, and the join is there exactly when the history does not end a line |
| `Restore.OutcomeMeaning` | restore.go:172-178 | full exactly when marked and no more is missing than was printed after the mark |
| `Restore.DegradedMeansLoss` | restore.go:167-178 | a drained, lossless stop is full; degraded means no mark, an undrained feed, or a loss |
| `Restore.LaterOutputHidesLoss` | session.go:775-790 | a run whose loss is hidden by output stored after the mark: answered full, and not whole |
| `Restore.RotationLabels` | store.go:364-369 | a rotation leaves every stored byte at its coordinate if and only if nothing is missing between the first byte of the segment it leaves and the chunk |
| `Restore.RotationHidesLoss` | store.go:364-369 | a byte lost in between, and after the rotation nothing counts as missing, a marked session is answered full, and the older half is read at coordinates after those it was printed at |
| `Lifetime.BeginOk` | store.go:140-147 | a created session satisfies the invariant, with nothing lost |
| `Lifetime.NextOk` | restore.go:81-189 | printing, losing, storing, editing the record, and a kill anywhere with a restart keep the ring, the feed and the store accounted for |
| `Lifetime.RestartOk` | restore.go:139-159 | whatever was lost before, the next process begins with nothing lost, where the store ends |
| `Lifetime.RunOk` | restore.go:81-189 | over any number of processes, with any losses: the ring holds byte k at coordinate k; where the store ends, what is on the way and what is lost add up to what was printed; and the segments are within two bounds |
| `Lifetime.RestartMovesNothing` | restore.go:139-147 | a restart leaves every stored byte at its coordinate if and only if what is on disk is whole |
| `Lifetime.NextKeeps` | store.go:58-65 | but for a stale stop, the store's end never goes back, and no step but a kill changes what a coordinate means; a kill costs only what was not stored, if what is stored is whole |
| `Lifetime.StaleMovesAll` | store.go:421-455 | a restart on a stale segment moves every stored byte to another coordinate, and there is one |
| `Lifetime.RepairNeedsRoom` | ring.go:58-62 | no kill of any run leaves a coordinate behind its bytes but one after a stale stop, and then only for a reader asking for more than a segment's bound less one read |
| `Lifetime.SameByteEverAfter` | restore.go:139-146 | over runs with losses, kills and restarts, as long as no restart finds a loss in front of a byte still stored: a coordinate the store's end has passed is the same byte ever after, from the ring, and from the store for what is whole |
| `Lifetime.AlignedIsTruthful` | store.go:351-374 | whatever else is lost, a run in which every chunk appended begins where the stored output ends is such a run |
| `Lifetime.LosslessIsTruthful` | feed.go:57-96 | a run whose feed has room and whose appends succeed, killed anywhere any number of times, is such a run |
| `Lifetime.EverythingStored` | feed.go:74-96 | where nothing was lost, a store that nothing stops ends holding everything printed, in as many turns as chunks are queued, feed open or closed |
| `Lifetime.KillCost` | feed.go:10-14 | a kill of a process that lost nothing costs at most the feed's depth and the chunk being written |
| `Lifetime.NextStop` | restore.go:164-183 | a process whose restart cleared the mark begins with nothing lost, and whatever was lost before, its own stop, drained and lossless, is answered full |
| `HiddenLosses.MaskedRun` | session.go:775-790 | from the open of a session: one read stored, one lost, a stop, one stored; full, and not whole |
| `HiddenLosses.RotatedRun` | store.go:364-369 | from the open of a session: one read stored, one lost, a segment filled, a stop, a rotation; full, nothing counted missing, and not whole |
| `Locks.ProgramRanked` | store.go:236-240 | every operation takes its locks in rising rank, changes what a lock guards only while holding it, and holds none at the end |
| `Locks.ProgramTouches` | store.go:82-88 | every operation changes what it is for, each under its lock |
| `Locks.NoRace` | store.go:110-129 | no two operations are ever about to change the same map, writer or record at once |
| `Locks.WaitRises` | store.go:110-129 | whoever is waited for waits for a lock of higher rank or not at all |
| `Locks.NoCycle` | store.go:236-252 | in every reachable state of any number of operations the wait-for relation has no cycle |
| `Locks.NeverStuck` | store.go:534-552 | in every reachable state with an unfinished operation, some operation can step |
| `Locks.AllFinish` | store.go:351-398 | whichever of them steps each time, everything started finishes after exactly the steps that were left |
| `Records.RecordStore.Create` | store.go:142-147 | publishes the record as given |
| `Records.RecordStore.SetForeground` | store.go:286-296 | changes the two foreground fields of a record it could read |
| `Records.RecordStore.ClearStopMark` | store.go:303-315 | takes the three mark fields off |
| `Records.RecordStore.SetSize` | store.go:320-330 | changes the two size fields |
| `Records.RecordStore.SetModes` | store.go:334-344 | changes the modes |
| `Records.RecordStore.MarkEnded` | store.go:254-269 | sets the mark, and the segment only if one was seen; where the segment begins is not touched |
| `Records.RecordStore.Remove` | store.go:552-560 | output goes before the record, so at every point output that is left is named by a record |
| `Records.NoUpdateLost` | store.go:110-129 | in every interleaving the record is the published updates applied one after the other |
| `Records.JobPublishes` | store.go:286-344 | an update, creation or removal that nothing stops does what it says; one of an absent record, or that fails, changes nothing |
| `Records.LastUpdateReadsBack` | store.go:284-344 | a record reads back the last update of a field, each part where it belongs, whatever else was updated before or since |
| `Records.RemovedStaysRemoved` | store.go:523-560 | after a removal nothing but a creation brings the record back |
| `Records.FieldIsItsOwn` | store.go:284-344 | a field is what the updates that touch it leave, whatever the others do in between |
| `Records.InterleavingsAgree` | store.go:284-344 | any two runs in which each writer (foreground, size, modes, marks, rotations) publishes the same stream, however the streams interleave and whatever else fails, end with one and the same record |
| `Records.MarkAgrees` | store.go:241-269 | the mark keeps record and writer in agreement if and only if the writer had no file or an even number of rotations were published between its two locks |
| `Records.StaleMark` | store.go:241-269 | the run with one rotation in between |
| `Records.StaleMeaning` | store.go:421-455 | a stale segment moves the derived end by the difference of the two lengths, and the output still holds only if the segments are equal, and when the older half then holds more than came before |
| `Ledger.Ledger.PublishLocked` | process_inventory_state.go:94-112 | one revision, offered to every open stream without waiting, a full one closed |
| `Ledger.Ledger.OfferAll` | process_inventory_state.go:101-110 | in whatever order the streams are visited, each open one gets the event or, when full, ends |
| `Ledger.Ledger.IndexById` | process_inventory_state.go:49-52 | the last record for an id counts |
| `Ledger.Ledger.ReplaceSession` | process_inventory_state.go:37-92 | publishes the difference in id order and files the new records |
| `Ledger.Ledger.PublishArrivals` | process_inventory_state.go:64-76 | starts and updates, in id order |
| `Ledger.Ledger.PublishDepartures` | process_inventory_state.go:77-84 | ends, in id order |
| `Ledger.Ledger.Observe` | process_inventory_state.go:129-138 | snapshot and stream begin together |
| `Ledger.Ledger.Stop` | process_inventory_state.go:141-150 | closes an open stream once |
| `Ledger.SortedIncreases` | process_inventory_state.go:154-161 | ids come strictly increasing |
| `Ledger.SameRecordIsEquality` | process_inventory_state.go:163-184 | the field-by-field comparison is equality of what is published |
| `Ledger.ChangesAnnounce` | process_inventory_state.go:54-84 | each record that starts, changes or ends is announced once, and nothing else |
| `Ledger.ChangesApplied` | process_inventory_state.go:64-84 | applying the announcements leaves the new records, and every other process as it was |
| `Ledger.ReplaceUnites` | process_inventory_state.go:86-92 | the inventory is the union of the sessions, this one's now exactly the records given |
| `Ledger.RunUnites` | process_inventory_state.go:37-92 | the same over any run of replacements with ids of their own |
| `Ledger.StreamReplays` | process_inventory_state.go:94-112 | in one state: consecutive revisions from the snapshot, replaying to the inventory at the last of them |
| `Ledger.OpenWhileItFits` | process_inventory_state.go:101-110 | an open stream stays open exactly as long as what is published fits the 64 unread, and keeps in order what did |
| `Ledger.OfferMeaning` | process_inventory_state.go:101-110 | one event: room for it and the stream holds it last, none and it ends holding what it held |
| `Ledger.OpenIffKeepsUp` | process_inventory_state.go:129-152 | over any run, an open stream is still open if and only if it was not stopped and every replacement found room for all it announced |
| `Ledger.SubscribedNow` | process_inventory_state.go:129-152 | a stream begins open with what is running now, and stopping it closes it |
| `Ledger.ReceivesAll` | process_inventory_state.go:129-152 | as many receives as are unread give the peer all of it, in order, open or ended |
| `Ledger.SnapshotPlusReplay` | process_inventory_state.go:12-14 | over any run: an open stream replays to the inventory now, a closed one is a gap-free prefix |
| `Monitor.FileIsReplaceSession` | process_inventory_state.go:86-90 | the sessions with records that this module tracks are the ledger's |
| `Monitor.NextOk` | process_monitor.go:43-106 | each step of starts, notifications, reconciles and the end keeps who is inside which lock and what is closed |
| `Monitor.StartFiles` | process_monitor.go:43-62 | a start of an open, unwatched session files the shell's record |
| `Monitor.StartLeaves` | process_monitor.go:47-57 | a start of a closed or watched session files nothing |
| `Monitor.StartReconciles` | process_monitor.go:73-106 | the reconcile of a start publishes what it read, or nothing if reading failed |
| `Monitor.NotePublishes` | process_monitor.go:78-106 | a notification on an open monitor publishes what it read |
| `Monitor.RunOk` | process_monitor.go:43-106 | the same over any interleaving |
| `Monitor.ClosedStaysClosed` | process_monitor.go:168-193 | from the moment the end has returned, the ledger holds no record of the session, ever |
| `Monitor.EndReturns` | process_monitor.go:168-193 | the end does return once those inside the locks have left |
| `ProcessTree.Index` | process_tree_unix.go:52-74 | the children of each process in table order, and whether the root is there |
| `ProcessTree.Expand` | process_tree_unix.go:87-104 | one round adds each unseen child once, and stops at a directory that cannot be read |
| `ProcessTree.Descendants` | process_tree_unix.go:78-106 | for any table, cyclic or with duplicates: nothing without the root, otherwise a complete answer or the error of some descendant |
| `ProcessTree.Finished` | process_tree_unix.go:81-106 | a finished search lists exactly the descendants that had not exited, once each, nearest first |
| `ProcessTree.PathSeen` | process_tree_unix.go:84-92 | whatever a path reaches is seen, no later than the path gets there, exited ancestors or not |

## Left out

- Coordinates are unbounded numbers. They would wrap after 2^64 bytes of one session; the pause and release tests, which subtract, and the renderer generation, which is meant to wrap, are modelled in 64 bits.
- The record is a datatype. JSON, file names, temporary files and the number formats of ids are not modelled, nor is a record that does not parse apart from a read that fails.
- Forcing the platter, and with it power loss: a crash is the process's.
- The memory the code copies or shares (the ring's backing array, the reader's buffers, cloned process records): values here are values.
- `Ring.Ring.Read` is one pass of the loop; the list of waiters is the parked reader of `Delivery`, which a write or the end wakes.
- `Store.SegmentStore.Append` runs alone in its session, as the writer's lock makes it; what runs beside it is in `Locks` and `Records`. Segment files an append creates beside a removal, and `output` beside a live rotation, are not modelled: `output` is read before a session's feed exists.
- `Feed.NextOk` has a stop mark that leaves the segment alone, as it does unless an odd number of rotations came between its two locks; `Lifetime` has the stale one as what a killed process leaves.
- `Lifetime.NextOk` does not follow a session whose stale stop left more in the older half than came before the current one (`Records.StaleMeaning` says when), because nothing the next process counts by agrees with that disk; nor appends between a stale mark and the end of its process that reopen a file by it.
- `Locks.ProgramRanked` has one program for each branch an operation takes on its lock path; an error path releases the same locks with less work between.
- `Monitor.EndReturns` starts with nobody inside the locks; that whoever is inside leaves them depends on calls outside the daemon returning.
- `Presence.EndAbandoned` answers which sessions end; ending one is `reap`, of which the ledger's, the store's and the pump's parts are in `Monitor`, `Records` and `Wakeup`.
- `Ledger` orders process ids as numbers where the code orders strings; any total order would do.
- Reading the monitor's watch and recording the foreground program under the monitor's lock change no ledger state and are not steps of `Monitor`.
- Starting terminals, sockets, the control envelope, command tables, token checks, tree notifications, `ps` parsing and process directories: foreign calls, taken as inputs that may be anything.
- `foregroundOf`, `restoreReport`, the shell of a command line, the limits of a tail request, environments and labels: short case analyses.
- The frames `deliverObservations` writes: the repository has no reader of them.

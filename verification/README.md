# A verified model of the watch room server

This Dafny project models the stateful core of a server for watching videos together, and
proves what that core promises over every run.

* **Playback.** A room keeps a position anchored to the wall clock. Three overlays pause or bend
  that clock: the buffer gate (a hold while viewers buffer), the playback preparation round (a
  readiness handshake with a soft deadline, a hard deadline and a scheduled start) and the leased
  2x speed. `RoomModel` gives every handler, tick and timer as a function of the room's state;
  `RoomInvariant` and `RoomRuns` prove one invariant of all of them; `RoomDecisions`, `RoomEffects`
  and `RoomTicks` say in values what each request and tick does and exactly when; `RoomTheorems`, `RoomRounds`, `RoomQueueTheorems` and
  `RoomRestore` state the promises over runs. `Room` is the object: its methods update its fields
  in place, setter by setter, and are proved to do what the functions say.
* **Around playback.** `Presence` (who is announced as joined or left), `SyncBatch` (how changes
  reach clients and database although checkpoints fail), `UndoLog` (matching and applying undo).
* **Permissions.** `RoleLattice`, `Permissions`, `GrantSettings` and `RoomStorage`: masks are
  validated, inherited upwards, changed by settings requests, stored, rebuilt and upgraded.
* **The queue.** `VideoQueue` with `StableSort`.
* **Allocators.** `VoiceBudget` (relay selection), `TokenBucket` (message budgets) and
  `DanmakuCache` (a bounded cache with recency and expiry).

`dafny verify dfyconfig.toml` checks everything.

## How to read the proofs

The playback state carries a history no handler reads. Its `ledger` is a reference clock that runs
at the effective speed and is set only where a handler chooses a position; `starts` logs each
written start time with the viewers and reports it was based on; `timeouts` logs holds that ran
out; `sources` counts source changes. The invariant ties the real fields to the history, and the
theorems are about the history or derived from it. A run is a list of timed events with a clock
that never goes back and fresh ids for joining clients; each handler is one atomic step.

The wall clock, the end of a segment to skip, the credentials of relay endpoints, the readings of
the usage store, the iteration order of saved tables and the outcome of publishing and storing are
parameters. A round's random id is a counter. Masks are sets of permission indices. A refused
request leaves the state as the code leaves it, which is not always untouched: in a queue over its
cap, a play-now request loses the item it took out of the queue (`PlayNowLosesIff`). Runs whose
queue edits fit never get there (`CapOverRuns`, `PlayNowNeverLoses`).

## What does not hold

* **A restored room can stall.** The flag set when a room is loaded from the database is cleared
  by `play()` only, not by a prepared start. `DequeueStallsIff` gives the exact condition,
  `RestoredRoomStalls` the runs. Overlays, rounds and gate distances are proved with and without the
  flag; only what concerns the clock needs it gone (`Timely` in `RoomInvariant`).
* **Checkpoints do not carry the restore behaviour.** It is the one setting without a setter.
  Connected clients see a new value only when they are sent the full state, the database only when
  the whole row is saved, which a settings request over HTTP does
  (`RestoreBehaviorNeedsMoreThanCheckpoints`, `SettingReachesClientsIff`).
* **A stored queue is reproduced exactly only if its first item has a start position**
  (`SnapshotAgainIsSameIff`).
* **Roles of a settings request in the wrong order keep old bits**
  (`RequestIsExactIff`, `RegisteredFirstKeepsOldBits`).
* **Undoing a skip rarely restores the queue in loop and dj mode.** Loop mode keeps the skipped item
  at the end as well, dj mode queues the repeated item on top, and in either mode a full queue
  refuses the undo (`UndoneSkipRestoresIff`, `LoopSkipUndoDuplicates`, `DjSkipUndoDuplicates`). In
  the other modes the queue comes back unless the next video is queued twice.
* **Undoing an add can clear another video.** With an empty queue it clears whatever is on, and
  undoing a batch add always does (`UndoneAddOnlyRemovesIff`, `UndoneBatchAddClearsSource`).
* **Undo has edges.** A seek away from a position beyond the seek limit cannot be undone
  (`UndoneSeekRestoresPosition`), and votes for a removed item stay lost.
* **A recovery can come too late.** A lone viewer whose recovery is reported 15 s or more into a
  hold, before the tick that would end it, is marked as not to be waited for although they just
  recovered, until their next report (`HeartbeatIsRecorded`).
* **Overwriting a cached key does not refresh it**, although a hit does: in a full cache the key
  set last is evicted next exactly when it was the oldest (`OverwriteDoesNotRefresh`).

## Model

| member | source | states |
|---|---|---|
| `RoomTheorems.OverlaysNeverMix` | server/room.ts:681-799 | In every state a legal run can reach, from any room the constructor can leave, restored from storage or not, at most one of buffer gate, preparation round and temporary speed is active; a gate or a round means not playing, a round pins source and position, a boost means playing at 2x with a source, and playing means no resume intent and, unless the room was restored, a non-null anchor |
| `RoomTheorems.EveryReachableStateIsSound` | server/room.ts:1517-1605 | The machine invariant (overlays, rounds, gate), that of the clock once the restored flag is gone, and the accuracy of the list of waited-for viewers survive every legal run of ticks, timers and requests |
| `RoomTheorems.PositionIsIntegralOfSpeed` | server/room.ts:1074-1088 | Over any run whose events choose no position, whatever plays, pauses, holds, speed changes and boosts are in it, the anchored position moves by exactly the integral of the effective speed over time |
| `RoomTheorems.QuietEventsNeverJump` | server/room.ts:1449-1455 | No event other than a seek, a new source, a skipped segment or a scheduled start moves the position at all |
| `RoomTheorems.PreparedStartIsExact` | server/room.ts:1729-1751 | At the agreed start time the room is exactly at the held position, even when its timer fires up to 50 ms early or a tick carries the start out late |
| `RoomTheorems.SwitchStartsAtZero` | server/room.ts:2868-2880 | A source put on by a play-now request stands at 0 whether it waits for preparation or plays at once |
| `RoomTheorems.QueuedStartsAtItsTrim` | server/room.ts:863-889 | A queued item stands at its own start position, or 0, whether it waits or plays at once |
| `RoomTheorems.NominalSpeedIsKept` | server/room.ts:2893-2997 | The speed under a boost changes only with an explicit speed request or a new source |
| `RoomTheorems.BoostsRestoreTheSpeed` | server/room.ts:2920-2935 | Any number of boosts started, renewed, stopped or expired leave the speed as they found it, unless a speed request or a new source intervened |
| `RoomTheorems.RoundsStartOnceAndForAReason` | server/room.ts:1101-1121 | Each start time in the log of a run was written for one of the three reasons (all live viewers ready, soft deadline with someone ready, hard deadline with no one), no round got two, and a held round's start time is the one logged last |
| `RoomTheorems.RoundsOnlyShrink` | server/room.ts:1753-1812 | Within a round the eligible list only shrinks, the ready list has one entry per viewer and stays inside it, deadlines and position stay, and a written start time stays |
| `RoomTheorems.RoundsStartInTime` | server/room.ts:1101-1130 | With ticks at most D ms apart, a round still held is younger than 20000 + 1000 + 2D ms |
| `RoomRounds.RoundEndsByStartOrCancel` | server/room.ts:1648-1956 | An event of an explicit list cancels the round being held; after any other event the round is still held, or its start is logged and the room plays, was held at once for a buffering viewer, or is already on to another item |
| `RoomRounds.HeldUntilStarted` | server/room.ts:1101-1130 | Over any run, a round that nothing cancels is held until its start is logged |
| `RoomRounds.UncancelledRoundsStartInTime` | server/room.ts:1101-1130 | With ticks at most D ms apart, a round neither cancelled nor replaced has its start logged within 20000 + 1000 + 2D ms of its creation |
| `RoomTheorems.DeadlinesCountFromCreation` | server/room.ts:1877-1908 | No handler moves the deadlines of a round; a new round has a fresh id and deadlines counted from its creation |
| `RoomTheorems.RestartsArePaidFor` | server/room.ts:2385-2397 | In any run, rounds created number at most the viewers lost plus twice the joins plus the source changes, so leaves alone restart a round only finitely often |
| `RoomTheorems.OverdueHoldEndsAtTick` | server/room.ts:743-747 | A hold 15 s old or older does not survive a tick and is logged as timed out |
| `RoomTheorems.HoldsKeepTheirDistance` | server/room.ts:681-708 | In every reachable state a hold began at least 45 s after the start of every earlier hold that timed out |
| `RoomTheorems.LoneViewerTimesOutOnce` | server/room.ts:681-708 | While one viewer stays alone, always buffering, on one source, at most one hold times out |
| `RoomRuns.HandleKeeps` | server/room.ts:1526-1590 | Every single event keeps the invariant, keeps the waiting list accurate, and pays for every round it creates |
| `RoomInvariant.EvaluateKeeps` | server/room.ts:743-799 | Evaluating the gate keeps the invariant and never moves the position |
| `RoomInvariant.ScheduleKeeps` | server/room.ts:1704-1727 | Scheduling a start keeps the invariant when one of the three reasons holds |
| `RoomInvariant.DequeueNextKeeps` | server/room.ts:831-911 | Advancing the queue keeps the invariant, counts one source change and creates at most one round |
| `Timestamp.Additive` | common/timestamp.ts:4-12 | Measuring up to any instant and on from there loses nothing |
| `RoomDecisions.HeldIff` | server/room.ts:743-799 | After an evaluation the room is held exactly when somebody must be waited for and a hold younger than 15 s is there or a new one may begin; it is then paused and waits for exactly those viewers |
| `RoomDecisions.WaitedForIff` | server/room.ts:761-771 | A viewer is waited for exactly when present, permitted to play, reported buffering and not exhausted |
| `RoomDecisions.PreparesIff` | server/room.ts:1669-1673 | A viewer can take part in a round exactly when present and permitted to play |
| `RoomDecisions.NewSourceIsHeldOrPlays` | server/room.ts:1818-1835 | A freshly put on source is held in a fresh round with everybody who can prepare, if anybody can, and plays otherwise |
| `RoomDecisions.DecidesIff` | server/room.ts:1107-1121 | A tick writes the start time of an undecided round exactly when one of the three reasons holds |
| `RoomDecisions.ReadyReportCounts` | server/room.ts:1927-1956 | A report that proves readiness counts once and leaves the reports of others alone |
| `RoomDecisions.LastLeaveKeepsIntent` | server/room.ts:2371-2384 | When the last viewer leaves a playing room it stops where it was, with no overlay and the intent to go on |
| `RoomDecisions.NextJoinPicksUp` | server/room.ts:2244-2261 | The next viewer finds a new round of their own at that position, or playback after a reconnect |
| `RoomDecisions.EmptyRoomContinuesWhereItWasLeft` | server/room.ts:2240-2399 | However long a playing room stays empty, the next viewer continues at exactly the position its last viewer left |
| `RoomEffects.HeartbeatIsRecorded` | server/room.ts:2401-2420 | A reported status is recorded for that viewer and no other; one other than buffering restores the viewer's patience, unless the hold they were waited for runs out with this very report |
| `RoomEffects.SilentHeartbeat` | server/room.ts:2401-2420 | A heartbeat without a status leaves all statuses alone |
| `RoomEffects.BufferingReportHoldsIff` | server/room.ts:743-799 | While the room plays, a viewer's buffering report makes it hold, paused, for that viewer exactly when the viewer may play and has patience left, the room waits for its viewers, and a hold may begin |
| `RoomEffects.RecoveryEndsHoldIff` | server/room.ts:743-799 | A waited-for viewer's recovery ends the hold exactly when nobody else is waited for, the room no longer waits, or the hold is 15 s old; the room then plays on |
| `RoomEffects.LeaveTakesOut` | server/room.ts:2364-2370 | A leave takes exactly the leaving viewer out of the list and keeps the order of the others |
| `RoomEffects.LeaveWithdrawsVotes` | server/room.ts:2355-2363 | In vote mode a leave withdraws exactly that viewer's votes, in other modes none |
| `RoomEffects.LeaveRestartsRound` | server/room.ts:2385-2397 | A round that loses a viewer starts over, under a new id and fresh deadlines, with exactly the remaining viewers who can prepare and no reports |
| `RoomEffects.LeaveEndsHoldIff` | server/room.ts:2364-2398 | The leave of a viewer from a held room ends the hold exactly when nobody else is waited for, the room no longer waits, or the hold is 15 s old |
| `RoomEffects.LastLeaveStops` | server/room.ts:2371-2384 | The last viewer's leave stops the room where it is; it resumes with the next viewer exactly if it was going on, or about to, and the item can be prepared |
| `RoomEffects.PauseRevokesEverything` | server/room.ts:1626-1646 | After a manual pause there is no hold, round, boost or resume intent, and the room stands where it was |
| `RoomEffects.PausedStaysPaused` | server/room.ts:1626-1634 | Over any run without play, seek and choice of another source, a paused room stays paused, on its source and where it was |
| `RoomEffects.PlayTakesEffect` | server/room.ts:1607-1624 | Play overrides hold and round and continues from the position; no new hold begins for 30 s after an overridden one, or for 2 s after a start |
| `RoomEffects.SeekTakesEffect` | server/room.ts:2027-2045 | A seek within 86400 s lands there, drops a round and neither plays nor pauses; any other changes nothing |
| `RoomEffects.SpeedIsSet` | server/room.ts:2893-2907 | A speed between 0.25 and 4 is set, ends a boost and does not move the position; any other changes nothing |
| `RoomEffects.BoostLapses` | server/room.ts:2909-2935 | The lease timer ends a boost exactly from its lease end on, with the speed it found and the position kept |
| `RoomEffects.OwnerRenewsAndStops` | server/room.ts:2954-2971 | The owner of a boost ends it, and with permission renews it for 5 s |
| `RoomEffects.VoteCounts` | server/room.ts:2585-2611 | A vote for a queued item adds its voter, a withdrawal removes that voter, and nothing else changes |
| `RoomEffects.SettingsArrive` | server/room.ts:2795-2821 | New mode, gate setting and grants arrive, and viewers, queue, source and votes stay |
| `RoomEffects.SettingsReconsiderHold` | server/room.ts:2821 | A hold is reconsidered under the new settings at once |
| `RoomEffects.PromotionArrives` | server/room.ts:2612-2680 | A promotion gives the named viewer the role and changes nothing else |
| `RoomEffects.JoinArrives` | server/room.ts:2240-2261 | A join appends the viewer, leaves source, queue and votes alone, and in an occupied room also playback and overlays |
| `RoomEffects.FirstViewerHolds` | server/room.ts:1861-1874 | The first viewer of a room that plays to nobody finds it held at its position in a round of their own |
| `RoomEffects.NewSourceForgets` | server/room.ts:570-580 | Another source forgets hold, round, boost, resume intent and exhausted viewers, and opens a grace period of 2 s |
| `RoomTicks.QueueTickAdvancesIff` | server/room.ts:1138-1161 | The queue's part of a tick moves on exactly when nothing is on and something is queued, or a recorded item plays strictly past its end position, else its length |
| `RoomTicks.TickOrdersQueue` | server/room.ts:1171-1182 | In vote mode a tick leaves a permutation of the queue with falling votes and ties in order, in the other modes the same queue |
| `RoomTicks.PlainTickAdvancesIff` | server/room.ts:1098-1229 | A whole tick of a room without overlays moves on exactly then; otherwise it keeps source and position, or skips exactly to the segment end |
| `RoomTicks.BoostSurvivesTickIff` | server/room.ts:1131-1136 | A boost survives a tick exactly while its owner is there and permitted and the item is not over |
| `RoomTicks.AdvanceSetsSpeed` | server/room.ts:905-908 | An advance ends a boost and resets the speed to 1, a repetition in dj mode keeps the speed under it |
| `RoomTicks.DjRepeats` | server/room.ts:843-853 | Dj mode plays what is on again, untrimmed, from its beginning, and leaves queue and votes alone |
| `RoomTicks.QueueRunsDry` | server/room.ts:888-896 | With nothing left the room is empty, stopped and back at the beginning |
| `RoomTicks.AdvanceDropsVotes` | server/room.ts:869-874 | The item that comes on takes its votes with it, and only those |
| `RoomTicks.TickRefreshesRound` | server/room.ts:1781-1812 | A tick keeps in a round, and among its reports, exactly the viewers who are still here and permitted |
| `RoomTicks.DecidesHow` | server/room.ts:1101-1121 | Plain, partial or forced start, prompt or wait, exactly by readiness and deadlines; a start with company is a second ahead with its timer armed, alone it is at once |
| `RoomTicks.StartTimerStartsIff` | server/room.ts:1729-1751 | The start timer starts a scheduled round exactly from 50 ms before its time on |
| `RoomTicks.FailedReportDrops` | server/room.ts:1753-1779 | A report of a failed or hidden player takes exactly its viewer out of the round |
| `RoomTicks.ReportCountsIff` | server/room.ts:1910-1956 | A healthy report has an effect exactly when it names the round, comes from its live viewer, shows a first frame within a second of the held position, and has 6 s (segmented) or 3 s buffered |
| `RoomRestore.RebuiltIsInitial` | server/room.ts:402-509 | A room the constructor builds is one the run theorems start from, provided a snapshot that was playing has its anchor and no resume intent |
| `RoomRestore.RebuiltKeepsSettings` | server/room.ts:402-509 | A rebuilt room has the settings, source and clock it was saved with, and nobody in it |
| `RoomRestore.RestoresIff` | server/room.ts:447-461 | A database row comes back as its stored queue exactly when the room is told to restore it always |
| `RoomRestore.StoredQueueSurvivesIff` | server/room.ts:441-461 | A stored queue is back in the room or still on offer exactly unless the room is told never to restore it |
| `RoomRestore.StaysRebuilt` | server/room.ts:2240-2399 | However viewers come, go, report and are promoted before the first tick, a rebuilt room stays idle with its stored queue |
| `RoomRestore.RebuiltRoomHandsOverPaused` | server/room.ts:447-461 | After any such visits, the first tick of a room loaded from the database puts on the first stored item at its start position, paused, with the rest as the queue, in every queue mode |
| `RoomRestore.SnapshotRoundTrips` | server/room.ts:1297-1306 | Saving a room with a current item, loading it from the database, any visits and one tick give the same item, position and queue, paused; saving again gives the same list |
| `RoomRestore.SnapshotAgainIsSameIff` | server/room.ts:1297-1306 | A stored list is reproduced by the next snapshot exactly when its first item already had a start position |
| `RoomQueueTheorems.DequeueStallsIff` | server/room.ts:863-889 | A dequeue leaves a room playing with no anchor exactly when the restored flag outlived the start of playback and there is a next item |
| `RoomRestore.RestoredRoomStalls` | server/room.ts:1729-1751 | The flag does outlive it: in a rebuilt room the run play-now, readiness report, add, skip, play ends playing without an anchor |
| `RoomQueueTheorems.PlayNowIsAllOrNothing` | server/room.ts:2837-2880 | Within the queue cap a play-now request changes nothing or puts the requested video on with the old current item, trimmed to where it was, on top of the queue |
| `RoomQueueTheorems.PlayNowLosesIff` | server/room.ts:2854-2868 | Playing a queued video that is not on loses it exactly when the queue is over its cap |
| `RoomQueueTheorems.CapOverRuns` | server/videoqueue.ts:44-131 | Over any run whose queue edits fit, the queue stays within its cap, or one over it in a restored room before anything is on |
| `RoomQueueTheorems.PlayNowNeverLoses` | server/room.ts:2837-2880 | So in every such reachable state a play-now request changes nothing or puts the requested video on |
| `RoomQueueTheorems.LoopRotates` | server/room.ts:854-871 | In loop mode one advance rotates (current, queue) by one and drops the trim of the item that moves to the end |
| `RoomQueueTheorems.LoopAfter` | server/room.ts:854-871 | After n advances, with anything in between that leaves mode and ring alone, the ring is rotated by n |
| `RoomQueueTheorems.LoopComesAround` | server/room.ts:854-871 | Queue length + 1 advances restore the original order up to trims |
| `RoomQueueTheorems.LoopConserves` | server/room.ts:854-871 | No advance loses or invents an item up to trims, and the queue ends no longer than it began |
| `Room.Room.Handle` | server/room.ts:1526-1590 | One event on the room object is one step of the machine, and the invariants of the room and of its clock are kept |
| `Room.Room.RealPlaybackPosition` | server/room.ts:1082-1088 | The object's position is the machine's |
| `Room.Room.SetCurrentSource` | server/room.ts:570-580 | Setting a source drops gate, exhausted viewers and round, ends a boost with its speed restored, and restarts the grace period |
| `Room.Room.SetIsPlaying` | server/room.ts:586-592 | Clearing the flag first ends a boost |
| `Room.Room.FlushPlaybackPosition` | server/room.ts:1449-1455 | The computed position becomes the stored one, anchored now |
| `Room.Room.Play` | server/room.ts:1607-1624 | Refines the machine's play: gate and round are dropped, a running clock is left alone |
| `Room.Room.Pause` | server/room.ts:1626-1634 | Refines the machine's pause; a hold keeps its gate, a manual pause drops it |
| `Room.Room.PausePlaybackClock` | server/room.ts:1636-1646 | Ends a boost, stores the position and stops the clock |
| `Room.Room.CancelPlaybackPreparation` | server/room.ts:1648-1659 | Round, start timer and resume intent are gone and nothing else changes |
| `Room.Room.ReleaseBufferGate` | server/room.ts:681-708 | Refines the release of a hold, with the loop that marks a lone viewer as exhausted |
| `Room.Room.ExhaustPatience` | server/room.ts:689-693 | The loop adds exactly the waited-for viewers to the exhausted set |
| `Room.Room.EvaluateBufferGate` | server/room.ts:743-799 | Refines the evaluation of the gate |
| `Room.Room.PrepareEmptyRoomPlayback` | server/room.ts:1877-1908 | Refines the creation of a round |
| `Room.Room.HoldPlaybackForPreparation` | server/room.ts:1827-1835 | Refines holding a new source for preparation |
| `Room.Room.SchedulePlaybackStart` | server/room.ts:1704-1727 | Refines the scheduling of a start, at once for at most one live viewer |
| `Room.Room.StartPreparedPlayback` | server/room.ts:1729-1751 | Refines the start at the agreed time, refused more than 50 ms early |
| `Room.Room.DropPlaybackParticipant` | server/room.ts:1753-1779 | Refines the loss of a participant |
| `Room.Room.RefreshPlaybackPreparation` | server/room.ts:1781-1812 | Refines the refresh of a round against the viewers still here |
| `Room.Room.FinishPlaybackPreparation` | server/room.ts:1910-1956 | Refines the acceptance or refusal of a readiness report |
| `Room.Room.HoldEmptyPlaybackForJoin` | server/room.ts:1861-1874 | Refines holding an empty playing room for its first viewer |
| `Room.Room.UpdatePreparation` | server/room.ts:1101-1130 | Refines the tick's decision about a round |
| `Room.Room.UpdateTemporarySpeed` | server/room.ts:1131-1136 | Refines the tick's check on the owner of a boost |
| `Room.Room.UpdateQueue` | server/room.ts:1138-1182 | Refines the tick's advance of the queue and, in vote mode, its ordering |
| `Room.Room.Update` | server/room.ts:1098-1229 | The one-second tick is the composition of its parts |
| `Room.Room.DequeueNext` | server/room.ts:831-911 | Refines the advance of the queue in all four modes |
| `Room.Room.SeekRaw` | server/room.ts:2015-2022 | A seek drops a round and anchors the position now |
| `Room.Room.JoinRoom` | server/room.ts:2240-2261 | Refines a join as far as playback is concerned |
| `Room.Room.LeaveRoom` | server/room.ts:2334-2399 | Refines a leave: boost, votes, list, resume intent or restarted round, gate |
| `Room.Room.SpliceUser` | server/room.ts:2364-2370 | The loop removes exactly the first entry of the client |
| `Room.Room.UpdateUser` | server/room.ts:2401-2420 | Refines a heartbeat |
| `Room.Room.SetStatus` | server/room.ts:2403-2405 | The loop updates exactly the first entry of the client |
| `Room.Room.GetUser` | server/room.ts:1014-1020 | The loop finds the first entry of the client, or none |
| `Room.Room.PlayNow` | server/room.ts:2827-2886 | Refines a play-now request, including what a full queue leaves behind |
| `Room.Room.SetPlaybackSpeed` | server/room.ts:2893-2907 | Refines an explicit speed request |
| `Room.Room.StartTemporaryPlaybackSpeed` | server/room.ts:2972-2996 | Refines the start of a boost |
| `Room.Room.ContinueTemporaryPlaybackSpeed` | server/room.ts:2954-2971 | Refines renewing and stopping a boost |
| `Room.Room.UndoSkip` | server/room.ts:2520-2537 | Refines undoing a skip |
| `Room.Room.CastVote` | server/room.ts:2585-2611 | Refines a vote on a queued item |
| `Presence.AnnouncementsAlternate` | server/room.ts:2283-2332 | Over any interleaving of tabs, refreshes and timers, the announcements of a session alternate joined and left, starting with joined, and stand at joined exactly while it has a connection or a pending leave |
| `Presence.PublishedWhen` | server/room.ts:2266-2332 | A join publishes an arrival exactly when the session was not around, a leave publishes nothing itself, and a timer publishes the departure |
| `Presence.ConnectionsFollow` | server/room.ts:2240-2370 | A join adds its connection, a leave takes out exactly its own, a timer touches none |
| `Presence.RefreshIsSilent` | server/room.ts:2283-2298 | Leaving and coming back before the timer fires announces nothing and leaves no timer behind |
| `Presence.Announcer.NoteJoin` | server/room.ts:2283-2298 | A join cancels the pending leave of its session and says whether it continues one |
| `Presence.Announcer.JoinRoom` | server/room.ts:2266-2273 | A join announces a session that was not around, and keeps announcements truthful |
| `Presence.Announcer.LeaveRoom` | server/room.ts:2308-2332 | A leave arms a timer unless the session has another connection |
| `Presence.Announcer.FireTimer` | server/room.ts:2321-2329 | A timer that fires announces the leave of an absent session |
| `SyncBatch.CleanFieldsAgree` | server/room.ts:1312-1381 | At every point of every run of changes, checkpoints, failures, full states and whole-row saves, a tracked field neither dirty nor in flight is equal in the room, the clients' copy and, for stored settings of a permanent room, the database |
| `SyncBatch.NothingIsLost` | server/room.ts:1358-1380 | After any run, one successful checkpoint brings every tracked field to the clients and every stored setting to the database |
| `SyncBatch.SettingReachesClientsIff` | server/room.ts:516-675 | A change reaches connected clients exactly when its field has a setter that marks it dirty, or they held that value already |
| `SyncBatch.UnmarkedReachesClientsIff` | server/room.ts:1267-1277 | Over any run that does not change it again, connected clients see an unmarked field's value exactly if they had it or were sent the full state |
| `SyncBatch.UnmarkedReachesDatabaseIff` | server/api/room.ts:283-285 | And the database has it exactly if it had it or the whole row was saved |
| `SyncBatch.RestoreBehaviorNeedsMoreThanCheckpoints` | server/room.ts:325 | A changed restore behaviour reaches connected clients only with the full state and the database only with the whole row, however many checkpoints run |
| `SyncBatch.SyncedRoom.SaveRow` | server/room.ts:2687-2689 | Saving the whole row stores every setting of a permanent room |
| `SyncBatch.SyncedRoom.BeginSync` | server/room.ts:1313-1360 | A checkpoint snapshots and clears the dirty set, once at a time |
| `SyncBatch.SyncedRoom.SendFullState` | server/room.ts:1273-1277 | A joining client is sent every field |
| `SyncBatch.SyncedRoom.FinishPublish` | server/room.ts:1361-1381 | Publishing updates the clients' copy; a failure marks the whole batch dirty again |
| `SyncBatch.SyncedRoom.FinishPersist` | server/room.ts:1369-1381 | Storing updates the database; a failure marks the whole batch dirty again |
| `SyncBatch.SyncedRoom.Set` | server/room.ts:816-819 | A setter writes the field and marks it dirty |
| `UndoLog.UndoesNeverExceedPublications` | server/room.ts:2496-2567 | Over any run no event is undone more often than it was published, at most 20 records are kept, and each is an exact copy of a published event not undone yet |
| `UndoLog.UndoAppliesARecord` | server/room.ts:2506-2562 | An undo changes the room only as a recorded event with the echoed fields says, only with every permission its reversal needs, and spends that record |
| `UndoLog.UndoPermissions` | server/room.ts:2510-2560 | The permissions each kind of undo takes, bit by bit |
| `UndoLog.PublishKeepsRecent` | server/room.ts:955-960 | A published event is recorded last, and the others stay but for the oldest of a full buffer |
| `UndoLog.ForgetKeepsOthers` | server/room.ts:2563-2566 | Spending a record leaves every other record |
| `UndoLog.UndoneRemovalRestoresQueue` | server/room.ts:2210-2223 | Removing an item and undoing it restores the exact queue and everything else except the item's votes |
| `UndoLog.UndoneSeekRestoresPosition` | server/room.ts:2515-2525 | Undoing a seek restores the position exactly when that position can itself be sought to |
| `UndoLog.UndoneSkipRestoresIff` | server/room.ts:2521-2537 | In all four queue modes, undoing a skip is refused exactly when the item that took over finds no room in the queue (or the position was negative); otherwise it restores video and position, and the queue exactly when: in dj mode the video was queued as well, in loop mode every queued item equals the current one, else the next video is queued once |
| `UndoLog.LoopSkipUndoDuplicates` | server/room.ts:854-858 | In loop mode the undo of a skip leaves the skipped item at the end of the queue as well |
| `UndoLog.DjSkipUndoDuplicates` | server/room.ts:843-853 | In dj mode it queues the repeated item on top although it never came from the queue |
| `UndoLog.UndoneAddOnlyRemovesIff` | server/room.ts:2538-2551 | Undoing the add of a video removes only that video exactly when something is queued, nothing is on, or it is what is on |
| `UndoLog.UndoneBatchAddClearsSource` | server/room.ts:2538-2551 | Undoing the add of several videos clears what is on and leaves them all queued |
| `UndoLog.UndoneAddRestoresQueue` | server/room.ts:2538-2551 | An add undone at once leaves the queue as it was |
| `UndoLog.UndoHistory.PublishRoomEvent` | server/room.ts:955-960 | A published event is recorded and the oldest record beyond 20 is dropped |
| `UndoLog.UndoHistory.UndoEvent` | server/room.ts:2496-2567 | Refines an undo, with its permission checks and the event it publishes on the way; it succeeds exactly when the echo is well formed, a record matches, its permissions are granted and its effect is possible |
| `UndoLog.UndoHistory.RemoveFromQueue` | server/room.ts:2210-2223 | Refines a removal with its published event |
| `UndoLog.UndoHistory.Spend` | server/room.ts:2563-2566 | Removes the undone record unless newer events pushed it out |
| `Permissions.ParseIntoGrantMask` | common/permissions.ts:211-224 | The parsed mask holds exactly the permissions some given name stands for |
| `Permissions.ValidationGrows` | common/permissions.ts:229-235 | A higher role may hold everything a lower one may |
| `Permissions.Grants.SetAllGrants` | common/permissions.ts:285-308 | Whatever the iteration order, the loop computes the closed form: each role gets the union of the validated grants up to it; an invalid role is an error |
| `Permissions.Grants.SetRoleGrants` | common/permissions.ts:323-332 | Setting one role validates its mask and passes it on to the roles above |
| `Permissions.Grants.ProcessInheritance` | common/permissions.ts:334-340 | The loop gives every ordinary role the union of the masks up to it |
| `Permissions.UpdatesKeepTheLattice` | common/permissions.ts:323-358 | After any sequence of role updates masks grow with the role, stay within validation, and a grant to a role is a grant to every higher one |
| `Permissions.ReplacedIsValid` | common/permissions.ts:285-308 | The closed form grows with the role and stays within validation |
| `Permissions.ConstructedFromIsConstructed` | common/permissions.ts:265-275 | A constructed grants object has all six roles, a growing chain and full masks at the top, with the closed form below |
| `Permissions.Grants.constructor` | common/permissions.ts:265-275 | Construction computes that object for every saved table and iteration order |
| `Permissions.CheckedNamesStandForTheirMasks` | common/permissions.ts:211-224 | Each permission name the room logic checks stands for exactly one bit of the table |
| `Permissions.Grants.IsGranted` | common/permissions.ts:345-358 | A name is granted exactly when the mask it stands for is within the role's mask |
| `Permissions.Grants.DeleteRole` | common/permissions.ts:400-402 | Deleting a role removes its entry only |
| `RoleLattice.GrantOneMore` | common/permissions.ts:334-340 | One more grant in the loop extends the closed form by one role, in whatever order |
| `RoleLattice.InheritedIsChain` | common/permissions.ts:334-340 | Inheritance makes masks grow with the role |
| `GrantSettings.ApplyGrants` | server/room.ts:2735-2771 | The two loops of a settings request apply exactly the entries that change a changeable role, in order |
| `GrantSettings.AscendingRequestIsExact` | server/room.ts:2803-2810 | With ascending roles a request leaves roles 0 to 3 exactly as asked and the top two untouched |
| `GrantSettings.AnyOrderStaysBetween` | server/room.ts:2803-2810 | In any order each mask lies between the request and the union of request and old mask |
| `GrantSettings.RequestIsExactIff` | server/room.ts:2803-2810 | In any order a role ends exactly as asked if and only if the request grants it what it carries up from a lower role that is set later |
| `GrantSettings.RegisteredFirstKeepsOldBits` | server/room.ts:2803-2810 | Setting registered users first leaves them every old bit of unregistered users, asked for or not |
| `RoomStorage.RoomToDb` | server/storage/room.ts:212-248 | The stored row has all masks but owner and administrator, the four role sets and the revision |
| `RoomStorage.LoadRoom` | server/storage/room.ts:150-176 | A loaded row gives back grants, role sets and revision |
| `RoomStorage.StoredGrantsRebuild` | server/storage/room.ts:150-176 | Dropping owner and administrator, storing and rebuilding is the identity on every constructed grants object |
| `RoomStorage.StampedRoomRoundTrips` | server/room.ts:478-483 | A room stamped with the current revision is loaded with its masks exactly as tightened |
| `RoomStorage.UnstampedRoomIsUpgradedOnce` | server/room.ts:478-483 | A room from before the revision is upgraded on its first load and never again |
| `RoomStorage.ApplyPermissionAdditions` | common/permissions.ts:441-452 | The loop over revisions computes the upgrade |
| `RoomStorage.UpgradeOnlyAdds` | common/permissions.ts:441-452 | An upgrade adds exactly the new permission, and only to older revisions |
| `RoomStorage.UpgradeIsIdempotent` | common/permissions.ts:441-452 | Upgrading twice is upgrading once |
| `VideoQueue.VideoQueue.Enqueue` | server/videoqueue.ts:44-61 | Appends all videos or, beyond the cap, refuses all |
| `VideoQueue.VideoQueue.EnqueueOverflow` | server/videoqueue.ts:77-88 | Appends without a cap |
| `VideoQueue.VideoQueue.Dequeue` | server/videoqueue.ts:64-70 | Takes the head of a non-empty queue |
| `VideoQueue.VideoQueue.PushTop` | server/videoqueue.ts:91-108 | Puts all videos on top or, beyond the cap, refuses all |
| `VideoQueue.VideoQueue.Insert` | server/videoqueue.ts:111-131 | Inserts at a position, refused out of bounds or beyond the cap |
| `VideoQueue.VideoQueue.Move` | server/videoqueue.ts:136-151 | Moves one item, refused out of bounds |
| `VideoQueue.VideoQueue.Evict` | server/videoqueue.ts:167-178 | Removes the first match and returns where it was, or fails if there is none |
| `VideoQueue.VideoQueue.OrderByVotes` | server/videoqueue.ts:193-208 | Replaces the items by their stable order and is dirty only if that changed |
| `VideoQueue.VideoQueue.Contains` | server/videoqueue.ts:161-164 | A video is contained exactly when some queued item has it |
| `VideoQueue.MoveIsReversible` | server/videoqueue.ts:136-151 | A move conserves the items, keeps the order of the others, and the opposite move undoes it |
| `VideoQueue.InsertUndoesRemove` | server/videoqueue.ts:111-131 | Inserting a removed item where it was restores the queue |
| `VideoQueue.RemoveUndoesInsert` | server/videoqueue.ts:111-131 | Removing an inserted item restores the queue |
| `VideoQueue.OrderedByVotesIsOrdered` | server/videoqueue.ts:193-208 | The ordered queue is a permutation with falling vote counts |
| `VideoQueue.TiesKeepOrder` | server/videoqueue.ts:193-208 | Items with equally many votes stay in the order they were queued in |
| `StableSort.StableOrderIsUnique` | server/videoqueue.ts:193-208 | An ordered list that keeps the items of each key in order is unique, so the model of the sort leaves no freedom |
| `VoiceBudget.NothingSelectedIff` | server/voice-budget.ts:196-246 | Nothing is selected exactly when no endpoint with quota yields credentials |
| `VoiceBudget.SelectedIsLeastUsed` | server/voice-budget.ts:196-246 | The selected endpoint works and no channel with a working endpoint is used less than its channel |
| `VoiceBudget.RememberedEndpointWins` | server/voice-budget.ts:225-243 | The remembered endpoint of the selected channel wins while it works |
| `VoiceBudget.SelectedFailsOverInOrder` | server/voice-budget.ts:225-243 | A selected channel without a memory is entered at its first working endpoint in configured order |
| `VoiceBudget.SelectionIsRemembered` | server/voice-budget.ts:237-241 | A selection is remembered for its channel and no other, and moves the cursor on |
| `VoiceBudget.SelectedEndpointSticks` | server/voice-budget.ts:225-243 | A channel selected again uses the same endpoint while it works, whatever else changed in between |
| `VoiceBudget.QuotaIff` | server/voice-budget.ts:124-164 | An endpoint has quota exactly when both readings succeed and the actual usage, else the estimate, is below its limit |
| `VoiceBudget.RelayedVolume` | server/voice-budget.ts:286-320 | A charged room owes kbps * 125 bytes a second for each ordered pair of participants, any other room nothing |
| `VoiceBudget.EveryChannelGetsATurn` | server/voice-budget.ts:212-221 | With n equally used working channels, n successive calls select every one of them |
| `VoiceBudget.AttemptsAre` | server/voice-budget.ts:201-222 | Exactly the channels with quota are tried, less used ones first |
| `VoiceBudget.Allocator.SelectRelayChannel` | server/voice-budget.ts:196-246 | The loops over channels select and remember what the specification says |
| `VoiceBudget.Allocator.TryChannel` | server/voice-budget.ts:222-243 | The loop over endpoints finds the first working one |
| `VoiceBudget.RecordUsage` | server/voice-budget.ts:286-320 | After a tick exactly the endpoints used by a charged room are accounted, each with the sum its rooms owe |
| `TokenBucket.GrantedIffEveryWindowHasRoom` | server/clientmanager.ts:475-485 | An attempt is granted exactly when every window of attempts that ends with it has room for one more: the bucket enforces the bound on all windows and refuses nothing else |
| `TokenBucket.MessagePassesIff` | server/clientmanager.ts:463-505 | A message passes the general bucket exactly when every window of attempts that ends with it stays within 40 plus 10 a second |
| `TokenBucket.ChatMessageAcceptedIff` | server/clientmanager.ts:463-505 | A chat message is then accepted exactly when every window of chat attempts stays within 5 plus one every two seconds |
| `TokenBucket.LevelIsLeastLeft` | server/clientmanager.ts:475-485 | The level is the least allowance left over all windows |
| `TokenBucket.LevelInRange` | server/clientmanager.ts:475-485 | Levels stay between empty and full |
| `TokenBucket.BudgetHolds` | server/clientmanager.ts:488-505 | In any interval of s seconds at most 40 + 10 s messages and 5 + 0.5 s chat messages are accepted |
| `TokenBucket.TokenBucket.TakeToken` | server/clientmanager.ts:475-485 | Refills by elapsed time up to the cap and takes a token if there is one |
| `TokenBucket.MessageBudget.Consume` | server/clientmanager.ts:488-505 | Decides each message as the account over all earlier ones says, with buckets created at the first message |
| `DanmakuCache.HitsAreCurrent` | server/api/danmaku.ts:37-65 | After any run the cache is within its limit and every hit is the latest unexpired value set for its key |
| `DanmakuCache.RecentKeysStay` | server/api/danmaku.ts:37-65 | The cache answers as an unbounded map with expiry for every key that fewer than maxEntries others were inserted or hit after, where sets, insertions and hits are read off the operations and answers of the run |
| `DanmakuCache.HitMovesToEnd` | server/api/danmaku.ts:49-52 | A hit puts its entry at the end, unchanged, and keeps the others in order |
| `DanmakuCache.MissDropsExpired` | server/api/danmaku.ts:41-48 | A miss changes nothing but to drop the expired entry of its key |
| `DanmakuCache.HitSurvivesNextInsertion` | server/api/danmaku.ts:49-63 | In a full cache of more than one entry, a key just hit survives the next new key |
| `DanmakuCache.OverwriteDoesNotRefresh` | server/api/danmaku.ts:54-63 | In any full cache, setting a resident key and then a new one evicts the key just set exactly when it was the oldest |
| `DanmakuCache.StepKeeps` | server/api/danmaku.ts:37-65 | Each lookup and store keeps one entry per key, the limit, the order of recency and a reason for every absence |
| `DanmakuCache.BoundedCache.Lookup` | server/api/danmaku.ts:40-53 | The lookup with its deletions and re-insertion follows the run of operations, and a hit is what was set last |
| `DanmakuCache.BoundedCache.Store` | server/api/danmaku.ts:54-63 | Refines a store with its eviction loop |
| `DanmakuCache.BoundedCache.EvictOldest` | server/api/danmaku.ts:56-62 | The loop drops the oldest entries until the limit holds |

## Left out

- RoomTheorems.PositionIsIntegralOfSpeed: covers runs without a chosen position; a chosen position itself is stated by the theorems on starts, sources and seeks, and the invariant equates position and reference clock in every reachable state.
- SyncBatch.CleanFieldsAgree: leaves out the playback position, which moves between snapshot and delivery, the stored queue snapshot and the stored role sets.
- VoiceBudget.RecordUsage: stops at the accumulated table; rounding to whole bytes and the failing writes to the store are not part of this model.
- UndoLog.UndoHistory.UndoEvent: holds the room as a value of the playback machine, not as the object; of the request schema it checks type, position and index, not the shape of videos.
- SyncBatch.SettingReachesClientsIff: which fields are written through marking code is read off the source (the setters at server/room.ts:516-675 and the marks beside the other writes); the setters themselves are not modelled.
- GrantSettings.ApplyGrants: applies a request that passed its permission checks, which come before the first change.
- Room.Room.JoinRoom: presence announcements of the same handler are in `Presence`, and the server's dirty marks are in `SyncBatch`; the room object is split into these aspects, which share no state the properties need.
- Room.Room.PlayNow: what the queue or the video service returned is a parameter, and the item is shared between current source and queue by value, not by reference.
- VideoQueue.VideoQueue.Move: the bounds check and the effect are one step, as are those of insertion; the lock between them is not modelled.
- TokenBucket.BudgetHolds: needs a clock that never goes back; with a clock set back a bucket refills for time it has already counted.
- Interleaving of handlers at their asynchronous calls: each handler is one step, except the checkpoint, which has its own begin, publish and store steps.
- Permission checks on requests other than undo, validation of ids, gestures and numbers that are not finite, and the vote-skip threshold.
- The diagnostics of a hold and the record of whether the gate itself paused the room, which is true for every gate the code creates.
- SponsorBlock segments, except that a tick may be told where to skip to.
- The queue's shuffle, item updates, restore and discard requests, which only change the queue; an arbitrary change of the queue is an event of the machine, and `CapOverRuns` assumes of it what those requests check.
- Re-authentication of a connection with another session token, and the clearing of leave timers when a room is unloaded.
- Shadow copies of room state in Redis, room loading and unloading, balancers, sockets and HTTP.
- Chat, notes, kicks, passwords, video adapters and probing: no state the properties depend on.

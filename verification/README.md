# Watch-together: a verified model

The repository keeps many browsers on one movie timeline. On the server one actor per room handles
one message at a time; in each browser a controller follows the playback state it is sent. This
project models that machinery in Dafny and proves what it promises over all inputs and all runs.

`dafny verify dfyconfig.toml` checks everything.

## How it is laid out

| module | models |
|---|---|
| `Playback` | the playback state, the server's and the browser's timeline arithmetic, jump detection |
| `RoomProtocol` | the room as a transition function over messages, its effects on connections, and runs of it |
| `RoomActor` | the actor and the connections as objects; each handler is proved to perform a protocol step |
| `RoomTimeline`, `RoomHeartbeat`, `RoomPresence`, `RoomRecovery` | theorems over all runs of the protocol |
| `RoomCommands`, `RoomNotices` | what each message does, and what each connection is told, with the numbers of the design written out |
| `Replication` | actor, bounded queues and browsers composed; convergence over all interleavings |
| `SyncController`, `DriftCorrector`, `ClockSynchronizer` | the browser's controller, drift loop and clock estimate |
| `EndToEnd` | from the server's epoch to the position of a video element |
| `WebSocketClient` | the reconnecting client and its acknowledgements |
| `RateLimiter` | the token bucket with and without eviction |
| `MultipartUpload` | batches, byte ranges and the server's check of the reported parts |
| `Basics`, `Counting`, `Sorting` | shared definitions |

Conventions. Server times and positions are integers (milliseconds); rates, offsets, tokens and
browser times are reals, and a conversion of a float to an integer truncates. The clock, the
database's answers, the order in which a map is traversed, what a video element reports and which
message arrives next are inputs, so every theorem holds for all of them. A payload that does not
decode is a value of its own. Every stateful part appears twice: as an object with the source's
fields and loops, and as a transition function; the object's contracts equate the two, and the
theorems are about the function. Theorems that pin a transition down (`RateAccepted`, `AnswerTable`,
`SlewProgress`, `OutcomeIff` and the like) name positions, rates, codes and times as literals, not the
constants or helpers of the transition.

Where the code differs from what one might expect, the code is modelled and the difference is stated:

- Closing a room keeps its phase and sets the status even if the store refuses; transferring the host
  role keeps the status. `RoomPresence.PresenceStep` says exactly which orders break the rule that a
  room without its host does not play; three concrete runs show that they do.
- The server stamps a ping before the blocking read, so half the round trip is not an error bound.
  `ClockSynchronizer.TextbookBoundIff` says exactly when it is, and `ClockErrorBound` what holds always.
- A heartbeat's evidence outlives the host who gave it: one host's sample can be confirmed by the next
  one's. `RoomHeartbeat.EvidenceOutlivesHost` is such a run, `ConfirmedByOneHost` says exactly when
  both samples are one host's, and `FilterStep` which messages clear or keep the evidence (it agrees
  with `docs/SYNC_ALGORITHM.md`: play, pause, seek, rate and buffering changes clear it).
- A checkpoint is clamped to the duration known when it is written. If a longer one becomes known
  later, the rebuilt room can be far behind: `RoomRecovery.UnderestimatedLengthLosesPosition` is such
  a run, and `CrashBound` says exactly when the crash bound holds. In the same way a heartbeat measured
  against too short a duration counts as evidence later (`RoomHeartbeat.EvidenceOutlivesLength`).
- A host that leaves while the room is not OPEN does not pause it: a buffering interval survives that
  (`RoomPresence.BufferingOutlivesHost`). `BufferingThroughLeave` and `HostLeavesWhileBuffering` say
  exactly when.
- A host that takes the room out of buffering during a stall it has reported, for example by pausing,
  keeps its own element stopped: `SyncController.StallThenPause` is such a run, and `DriveHeldHost`
  shows that nothing but the four releases it names ends it.
- A seek made after a stall was noticed does not postpone its confirmation: `SyncController.DriveArmed`.
- A room is restored with the medium of its checkpoint, even if its record names another:
  `RoomRecovery.RebuiltMediumIff`.
- The jitter lets a reconnection delay leave the range of 1 to 10 seconds and shrink from one attempt
  to the next: `WebSocketClient.DelayBounds`, `DelaysGrowIff` and `DelayShrinks`.
- Nothing in the repository calls the limiter's `Cleanup`; what a caller would have to respect is
  `RateLimiter.InvisibleIffPatient` and
  `WindowBoundIffPatient`.

## Model

| member | source | states |
|---|---|---|
| `Playback.TimelinesAgree` | internal/rooms/state.go:35-47 | for any sane state and any millisecond, the server's position is the integer part of the browser's real-valued one: truncation commutes with the clamp |
| `Playback.ExpectedPositionMonotone` | web/src/player/PlaybackModel.ts:4-15 | the browser's timeline is never negative and never runs backwards |
| `Playback.ExpectedAdvance` | internal/rooms/state.go:35-47 | the server's timeline never runs backwards and gains less than rate times elapsed time plus the truncated millisecond |
| `Playback.ReanchorKeepsPosition` | internal/rooms/actor.go:592-595 | re-anchoring at the expected position keeps the position at that instant, for every phase and rate it continues with |
| `Playback.ExpectedPositionContracts` | web/src/player/PlaybackModel.ts:4-15 | reading the browser's timeline at a time that is off by e is off by at most rate * e |
| `Playback.TimelineFormula` | internal/rooms/state.go:35-47 | the timeline in one formula: from the anchor on the integer part of rate times elapsed time is added while playing, up to a known end |
| `RoomTimeline.ReachableTimelinesAgree` | internal/rooms/actor.go:118-133 | in every room reachable from a start or a restore, both timelines agree at every millisecond and run forward only |
| `RoomTimeline.SaneRun` | internal/rooms/actor.go:454-630 | over every run anchors and durations stay non-negative and rates valid, in the live state and in what is stored |
| `RoomTimeline.PositionContinuity` | internal/rooms/actor.go:358-364 | a message that neither states a position, nor loads a medium, nor announces its length, nor is a confirmed heartbeat leaves the position unchanged at the instant it is handled; so do rate changes, the host's departure and buffering recovery |
| `RoomTimeline.CommandedPosition` | internal/rooms/actor.go:563-630 | after an accepted play, pause, seek, buffering or ended command the timeline stands at the stated position, for good unless it plays, and otherwise until 350 ms later, from when on it advances at the room's rate |
| `RoomTimeline.Publication` | internal/rooms/actor.go:283-295 | every message either leaves the playback state alone and tells nobody anything about it but a joiner, or counts the revision up by one and broadcasts exactly the new state to exactly the remaining members, last |
| `RoomTimeline.EpochCounts` | internal/rooms/actor.go:556-581 | over any stretch of any run the epoch grows by exactly the number of accepted seeks and media changes |
| `RoomTimeline.JumpIffDiscontinuity` | web/src/player/SyncController.ts:290-308 | for any two states of one run with the same medium, however many in between were skipped, the browser sees a jump if and only if a seek or media change was accepted between them (or both rest in one phase, a second apart) |
| `RoomCommands.Refusals` | internal/rooms/actor.go:454-486 | a command is refused exactly to a stranger (room orders excepted), to who is neither host nor, for room orders, a super administrator and no guest, and for a position outside the medium and its second of tolerance; the first two change nothing |
| `RoomCommands.AuthorizedIff` | internal/rooms/actor.go:484-486 | the room lets order exactly the host, and for orders about the room a super administrator who is no guest |
| `RoomCommands.InvalidCommands` | internal/rooms/actor.go:487-621 | exactly what is answered with INVALID_COMMAND: a payload that does not decode, a missing or guest successor, a missing target or the host as target of a kick, a nameless medium or negative length, a rate that is none of the six, an unknown command |
| `RoomCommands.RoomRates` | internal/rooms/state.go:48-55 | the valid rates are those less than 0.0001 away from 0.5, 0.75, 1, 1.25, 1.5 or 2 |
| `RoomCommands.RateAccepted` | internal/rooms/actor.go:587-595 | an accepted rate command sets the rate of its payload; from then on, at every later time, the position is the clamp of the one it had plus the integer part of the new rate times the time since if playing, and the one it had otherwise; phase, epoch, medium, duration and intent are kept |
| `RoomCommands.RateRefusedIff` | internal/rooms/actor.go:587-591 | a rate is refused if and only if it is none of the six, and then the timeline is unchanged |
| `RoomCommands.PositionedCommand` | internal/rooms/actor.go:566-618 | an accepted play, pause, seek, buffering or ended command: the phase it leads to, the position at every time (350 ms of lead if it plays), the epoch (one more by a seek only) and the intent to resume (set by buffering only); rate, medium and duration are kept |
| `RoomCommands.ReadyResumes` | internal/rooms/actor.go:602-609 | the host's ready resumes exactly a buffering room that means to play, from the held anchor with 350 ms of lead; otherwise it has no consequence |
| `RoomCommands.DeparturePauses` | internal/rooms/actor.go:358-364 | when the host leaves an open room the timeline stops where it stands |
| `RoomCommands.MediaAccepted` | internal/rooms/actor.go:542-562 | after an accepted change of medium the position is 0 at every time, the rate is 1, name and length are those given, in a new epoch |
| `RoomCommands.MediaRefusedIff` | internal/rooms/actor.go:542-549 | a change of medium is refused exactly for an empty name, a negative length, or by the store, and then changes nothing |
| `RoomCommands.LengthStep` | internal/rooms/actor.go:471-478 | the duration changes only with the medium, or by the host who is ready with the current one and announces between 1 ms and a week |
| `RoomCommands.MembersStep` | internal/rooms/actor.go:322-541 | who is a member after a message: who entered by it, and who was one and neither left, nor was kicked, nor sent out with the closing room |
| `RoomCommands.JoinRefusals` | internal/rooms/actor.go:322-330 | a join is refused exactly by a closed room, or by a full one to somebody new, and then changes nothing |
| `RoomCommands.ReadinessStep` | internal/rooms/actor.go:408-411 | a member is ready exactly if its last word since it entered was so |
| `RoomCommands.StatusStep` | internal/rooms/actor.go:322-541 | how the status changes, for every message: by a close order, the departure and the return of the host, a takeover and a reopening, and by nothing else |
| `RoomCommands.ReopenRefused` | internal/rooms/actor.go:418-431 | reopening fails exactly if the store refuses it for a closed room, and then changes nothing |
| `RoomCommands.TitleStep` | internal/rooms/actor.go:432-438 | the title changes exactly by a rename that the store takes |
| `RoomCommands.SnapshotShows` | internal/rooms/actor.go:406-407 | a snapshot shows the room and its timeline as they are, and changes nothing |
| `RoomNotices.NoticeStep` | internal/rooms/actor.go:283-295 | for every message and every connection of a member or joiner with room for it: exactly what it is told, in order, and whether and with which code and reason it is closed (4001 replaced, 1008 removed, 1000 room closed, 1001 shutdown) |
| `RoomNotices.FullQueue` | internal/realtime/handler.go:74-84 | a connection with 64 envelopes waiting is told nothing more, and a broadcast closes it with 1013 |
| `RoomNotices.FirstCloseCounts` | internal/realtime/handler.go:82-84 | whatever follows, a closed connection keeps the code and reason of its first close |
| `RoomHeartbeat.RefreshIsConfirmed` | internal/rooms/actor.go:636-667 | an anchor refresh implies an immediately preceding sample; each of the two is from whoever was the connected host at its time, healthy, while playing, at least 750 ms off in the same direction and measured against the same medium, epoch, anchor position, anchor time and rate |
| `RoomHeartbeat.RefreshIff` | internal/rooms/actor.go:636-667 | a sample refreshes the anchor if and only if it is healthy and at least 750 ms off while playing, one in the same direction is held, and the last refresh, if any, is 15000 ms ago; what is held afterwards |
| `RoomHeartbeat.RefreshMoves` | internal/rooms/actor.go:610-613 | a refresh makes the timeline go on from the sample at the same rate and changes nothing else; any other sample leaves the timeline alone |
| `RoomHeartbeat.RefreshSpacing` | internal/rooms/actor.go:659-661 | any two refreshes of a run are at least 15000 ms apart, the first at a positive time |
| `RoomHeartbeat.RefreshAtZeroIsForgotten` | internal/rooms/actor.go:659-661 | a concrete run: a refresh at time 0 counts as none, and the next follows 2000 ms later |
| `RoomHeartbeat.RefreshRateLimit` | internal/rooms/actor.go:656-666 | any stretch of a run whose refreshes fall into w milliseconds at positive times holds at most w/15000 + 1 of them |
| `RoomHeartbeat.OtherStep` | internal/rooms/actor.go:566-621 | a message that does not reach the filter and leaves a playing room with held evidence has kept the evidence and the medium, epoch, anchor and rate it was measured against; the duration may have changed |
| `RoomHeartbeat.ConfirmedUnderOneLength` | internal/rooms/actor.go:459-480 | over every run the confirming sample has the same drift under the duration known at the refresh if and only if the duration is the same or neither cuts off the position the timeline had reached |
| `RoomHeartbeat.EvidenceOutlivesLength` | internal/rooms/actor.go:459-480 | a concrete run: a sample that was 1000 ms ahead under too short a duration confirms a refresh, although under the corrected one it was 12650 ms behind |
| `RoomHeartbeat.FilterStep` | internal/rooms/actor.go:566-672 | exactly the in-range play, pause, seek, rate, buffering, ready and ended orders of the host clear the filter, even refused ones; exactly the host's samples update it; media changes, departures and hand-overs leave it alone |
| `RoomHeartbeat.HostStep` | internal/rooms/actor.go:376-512 | the host changes if and only if the message is an accepted transfer to somebody else or a takeover after the grace period, and to whom those appoint |
| `RoomHeartbeat.ConfirmedByOneHost` | internal/rooms/actor.go:500-512 | over every run the two samples behind a refresh are one host's if and only if the host did not change between them or last changed back to the first one's; with exactly one change they are two hosts' |
| `RoomHeartbeat.EvidenceOutlivesHost` | internal/rooms/actor.go:500-512 | a concrete run from the start: a host's sample, a hand-over, and one sample of the new host refreshes the anchor |
| `RoomPresence.MembershipRun` | internal/rooms/actor.go:327-357 | in every run the online counter equals the number of members, never exceeds the limit, and members are filed under their own id |
| `RoomPresence.ClientIsLatestJoin` | internal/rooms/actor.go:331-336 | every member is served by the connection of the latest accepted join under its id |
| `RoomPresence.LateLeaveIsIgnored` | internal/rooms/actor.go:347-354 | once a connection no longer serves its member (replaced, kicked, gone with the room) its own farewell changes nothing, however late it comes, unless it joins again |
| `RoomPresence.PlayingProvenance` | internal/rooms/actor.go:567-609 | every entry into playing is a play of the connected host, or their host_ready ending a buffering interval a connected host opened and nothing interrupted (no play, pause, end, media change, and no leave of the host from an OPEN room), resuming from the held anchor 350 ms ahead |
| `RoomPresence.BufferingWasOpened` | internal/rooms/actor.go:596-601 | in every run buffering implies the intent to resume playing, and was opened by host_buffering of a connected host with no play, pause, end, media change or leave of the host from an OPEN room since |
| `RoomPresence.BufferingThroughLeave` | internal/rooms/actor.go:358-364 | a buffering room goes on buffering when its host leaves if and only if its status is not OPEN |
| `RoomPresence.HostLeavesWhileBuffering` | internal/rooms/actor.go:347-364 | over every run, since the opening of a buffering interval every leave of the host came while the status was not OPEN, and only after one of the orders that break the host-presence rule; without those there was none |
| `RoomPresence.BufferingOutlivesHost` | internal/rooms/actor.go:500-512 | a concrete run: a host appointed while the room waits plays, stalls, leaves, returns, and one host_ready resumes the interval |
| `RoomPresence.PresenceStep` | internal/rooms/actor.go:500-541 | from a state satisfying the host-presence rule a message keeps it if and only if it is not an accepted transfer while waiting for the host nor a close of a playing room (or one the store refuses while members are in) |
| `RoomPresence.HostAbsenceStopsRoom` | internal/rooms/actor.go:358-402 | over runs without those orders: HOST_DISCONNECTED means the host is not a member, an absent host means not playing, CLOSED means empty, across leave, supersession, expiry, takeover, rejoin and reopen |
| `RoomPresence.SuccessorIsFirst` | internal/rooms/actor.go:380-390 | whoever takes over is the first in the store's order who is connected, no guest and not the old host; nobody does only if there is none |
| `RoomPresence.ClosedWhilePlayingStillPlays` | internal/rooms/actor.go:529-541 | a concrete run: join, play, close, reopen ends HOST_DISCONNECTED, empty and playing |
| `RoomPresence.AppointedHostLeavesRoomPlaying` | internal/rooms/actor.go:500-512 | a concrete run: a host appointed while the room waits for one plays and leaves, and the room plays without a host |
| `RoomPresence.RefusedCloseKeepsMembers` | internal/rooms/actor.go:529-533 | a concrete run: a close that the store refuses leaves a closed room with its members |
| `RoomRecovery.CrashBound` | internal/rooms/actor.go:674-680 | at any point of any run with successful saves that starts without a checkpoint or from one that names the medium of the room: the room rebuilt from the store has the same medium and rate, does not play and stands still; there is a last save; and for every last save and all later crashes the rebuilt position, clamped to the live duration, is at most the live one and short of it by less than rate times the time since the save plus 1 ms, if and only if the room was not playing, or had not run past the duration known at the save, or that duration has since only been learned or shortened |
| `RoomRecovery.WithinIffCovered` | internal/rooms/actor.go:674-680 | that bound holds at every later crash if and only if the stored position is covered by the duration known now |
| `RoomRecovery.StoredPositionClamped` | internal/rooms/actor.go:674-680 | the stored position is the live one at the save exactly if it is covered, and otherwise the old end of the medium, behind the live one |
| `RoomRecovery.UnderestimatedLengthLosesPosition` | internal/rooms/actor.go:459-480 | a concrete run: a length of one second is announced, played past, checkpointed and corrected; the rebuilt room is 7650 ms behind at the very time of the save |
| `RoomRecovery.RebuiltMediumIff` | internal/rooms/actor.go:118-133 | from any starting checkpoint: the rebuilt room has the live medium if and only if nothing was stored since, or that checkpoint named the medium of the room, or the medium was changed in the run |
| `RoomRecovery.StaleCheckpointSwitchesMedium` | internal/rooms/actor.go:118-133 | a concrete case: a room started from a checkpoint of an older medium shows that one, and another after its next checkpoint and a restart |
| `RoomRecovery.SaveStep` | internal/rooms/actor.go:625-629 | with saves that succeed every message that moves the timeline stores it; all others change at most revision and duration |
| `RoomRecovery.StoredStep` | internal/rooms/actor.go:674-680 | exactly which messages store, and what: the medium of the room, the position on the timeline while playing and the anchor otherwise, rate, phase and time; a refused save keeps the older one |
| `RoomRecovery.StartedRoom` | internal/rooms/actor.go:118-133 | what a started room is: nobody in it, nothing playing, revision and epoch 0; from a checkpoint its medium, position and rate, without one the medium of the room from its beginning |
| `RoomRecovery.RebuiltStandsStill` | internal/rooms/actor.go:118-133 | whatever a room is rebuilt from, it does not play and has the same position at every time |
| `Replication.ReplicaConvergence` | internal/rooms/actor.go:283-346 | in every state of every run of room, bounded queues and browsers (with drops, redials, supersession and server restarts) each member's connection is closed, or no longer listened to, or its queue folded over the page gives exactly the server's state; drained, the page shows it and the controller takes it |
| `Replication.StepKeeps` | internal/realtime/handler.go:74-84 | every action of the composed system keeps that invariant |
| `Replication.OnlySlowConsumersAreClosed` | internal/rooms/actor.go:287-294 | in every run, short of a shutdown, the actor closes the connection of someone who stays a member by it only with 1013 and a full queue of 64 |
| `Replication.ServeFollower` | internal/rooms/actor.go:622-629 | a connection that follows the room keeps following it through any message of another, unless it is closed |
| `Replication.ServeJoiner` | internal/rooms/actor.go:336-346 | an accepted joiner's queue leads to the server's state whatever its browser held before, including a higher revision |
| `Replication.ShowKeepsQueue` | web/src/components/VideoPlayer.tsx:224-226 | handing the page's state to the controller at any time does not change where the queue leads |
| `RoomActor.Connection.Send` | internal/realtime/handler.go:74-81 | queues an envelope exactly if fewer than 64 are waiting, and says so |
| `RoomActor.Connection.Close` | internal/realtime/handler.go:82-84 | only the first close counts |
| `RoomActor.Actor.constructor` | internal/rooms/actor.go:118-133 | the new actor is the protocol's initial state: no members, never playing, restored position and rate |
| `RoomActor.Actor.Broadcast` | internal/rooms/actor.go:283-295 | every member's connection gets the envelope, or is closed as a slow consumer if its queue is full; no other connection is touched |
| `RoomActor.Actor.Join` | internal/rooms/actor.go:322-346 | performs the join transition on fields, reply and every touched queue, including supersession and the refusals |
| `RoomActor.Actor.Leave` | internal/rooms/actor.go:347-375 | performs the leave transition, including the host's departure and the ignored stale leave |
| `RoomActor.Actor.FindSuccessor` | internal/rooms/actor.go:380-390 | the search loop finds the first eligible stored member, or none |
| `RoomActor.Actor.ExpireHost` | internal/rooms/actor.go:376-402 | performs the takeover transition or changes nothing |
| `RoomActor.Actor.Reopen` | internal/rooms/actor.go:418-431 | performs the reopen transition, including a refusing store |
| `RoomActor.Actor.Rename` | internal/rooms/actor.go:432-438 | performs the rename transition: title and announcement only once the store has agreed |
| `RoomActor.Actor.Tick` | internal/rooms/actor.go:414-417 | stores a checkpoint exactly while playing |
| `RoomActor.Actor.SetReady` | internal/rooms/actor.go:408-411 | marks a member ready and nothing else |
| `RoomActor.Actor.Shutdown` | internal/rooms/actor.go:439-449 | tells and closes everyone and stores the checkpoint |
| `RoomActor.Actor.AcceptHostAnchorSample` | internal/rooms/actor.go:636-667 | performs the heartbeat filter's transition on filter and anchor |
| `RoomActor.Actor.PersistCheckpoint` | internal/rooms/actor.go:674-680 | stores the expected position while playing and the unclamped anchor otherwise |
| `RoomActor.Actor.ApplyClientReady` | internal/rooms/actor.go:459-480 | performs the ready transition; only the host's plausible duration for the current medium is published |
| `RoomActor.Actor.ApplyTransfer` | internal/rooms/actor.go:500-512 | performs the transfer transition, which leaves the status as it is |
| `RoomActor.Actor.ApplyKick` | internal/rooms/actor.go:513-528 | performs the kick transition; the host cannot be kicked |
| `RoomActor.Actor.ApplyClose` | internal/rooms/actor.go:529-541 | performs the close transition, which leaves the phase as it is and sets the status even if the store refuses |
| `RoomActor.Actor.ApplyMedia` | internal/rooms/actor.go:542-562 | performs the media transition |
| `RoomActor.Actor.RetimePlayback` | internal/rooms/actor.go:566-621 | the switch over the playback commands computes the protocol's retiming, whose effect on rate, position, phase, epoch and intent RateAccepted, PositionedCommand, ReadyResumes and RefreshMoves say without it |
| `RoomActor.Actor.ApplyPlayback` | internal/rooms/actor.go:563-630 | performs a playback command: range check, retiming, publication, checkpoint |
| `RoomActor.Actor.Apply` | internal/rooms/actor.go:454-630 | performs authorization, refusals and every command |
| `RoomActor.Actor.Handle` | internal/rooms/actor.go:320-452 | one turn of the message loop, for every kind of message, performs exactly one protocol step on the actor, the reply and every connection it may touch |
| `DriftCorrector.Corrector.Correct` | web/src/player/DriftCorrector.ts:27-103 | the object's answer and new fields are those of the transition function, which AnswerTable and MemoryTable give in closed form |
| `DriftCorrector.Corrector.Reset` | web/src/player/DriftCorrector.ts:105-109 | clears the correction and never shortens a settle window |
| `DriftCorrector.HardSeekIsConfirmed` | web/src/player/DriftCorrector.ts:51-76 | over every run on a forward clock a hard seek ends an unbroken stretch of calls, without reset and outside every settle window, all at least 2400 ms off in one direction, that began at least 1800 ms before |
| `DriftCorrector.AnswerTable` | web/src/player/DriftCorrector.ts:27-103 | the answer to every sample in closed form: NOOP in a settle window and within the band (420 ms to begin, 220 ms to go on), a seek when due, and otherwise the room rate times a factor that is linear in the drift |
| `DriftCorrector.SoftAnswer` | web/src/player/DriftCorrector.ts:78-102 | behind by m the factor rises linearly from 1.008 at 220 ms to 1.05 at 2400 ms and stays; ahead by m it falls from 0.994 to 0.97 |
| `DriftCorrector.CatchUpIsStronger` | web/src/player/DriftCorrector.ts:78-102 | at equal distance catching up is strictly the stronger correction; it lies between 1.008 and 1.05, holding back between 0.97 and 0.994 |
| `DriftCorrector.MemoryTable` | web/src/player/DriftCorrector.ts:27-103 | what the controller remembers after every sample: whether it corrects, since when it has been 2400 ms off in which direction, and after a seek its time and 3500 ms of settling |
| `DriftCorrector.RestartTable` | web/src/player/DriftCorrector.ts:105-109 | what a reset keeps and clears; the settle window is the later of the old and the new one |
| `DriftCorrector.LongDriftIsSought` | web/src/player/DriftCorrector.ts:51-76 | conversely, over every run on a forward clock, of the samples of an unbroken far-off stretch of 1800 ms outside settle windows that ends 12000 ms after the last seek before it, one is answered with a seek |
| `DriftCorrector.HardSeekCooldown` | web/src/player/DriftCorrector.ts:58-64 | any two hard seeks of a run are at least 12000 ms apart |
| `DriftCorrector.SettleWindowIsQuiet` | web/src/player/DriftCorrector.ts:36-38 | inside a settle window, opened by a seek or a reset, every answer is to play at the room's rate |
| `DriftCorrector.SoftTickShrinks` | web/src/player/DriftCorrector.ts:78-103 | in the closed loop every rate correction moves the drift toward zero, by more than 2.9994 ms from behind and more than 2.2495 ms from ahead, and never past it |
| `DriftCorrector.LoopConverges` | web/src/player/DriftCorrector.ts:20-103 | from any drift, at any valid room rate, and from any state a controller can be in, the closed loop answers NOOP forever, with constant drift below 420 ms, after 744 ticks of 750 ms from behind and 987 from ahead |
| `DriftCorrector.LoopConvergesFromAnyRun` | web/src/player/DriftCorrector.ts:20-109 | the same after any run of samples, seeks and resets on a forward clock |
| `DriftCorrector.FreshLoopConverges` | web/src/player/DriftCorrector.ts:20-103 | a fresh controller needs at most 731 ticks from behind and 974 from ahead |
| `DriftCorrector.HardSeekIsFinal` | web/src/player/DriftCorrector.ts:64-72 | in the closed loop after a hard seek the drift is zero and every answer is NOOP, so there is at most one |
| `ClockSynchronizer.Synchronizer.AcceptPong` | web/src/player/ClockSynchronizer.ts:22-66 | the object's new samples, pending pings and offset are those of the transition function; SampleIs, StreamingSelection, SlewProgress and PongCountsOnce say what those are |
| `ClockSynchronizer.Synchronizer.PingPayload` | web/src/player/ClockSynchronizer.ts:16-20 | a ping is remembered under its own time |
| `ClockSynchronizer.Synchronizer.Reset` | web/src/player/ClockSynchronizer.ts:72-76 | forgets samples and pings and falls back to the wall clock |
| `ClockSynchronizer.RetainIsShortest` | web/src/player/ClockSynchronizer.ts:42-44 | keeping twelve while streaming equals the head of the stable sort of the whole history |
| `ClockSynchronizer.StreamingSelection` | web/src/player/ClockSynchronizer.ts:42-44 | after any run since a reset the retained samples are the twelve lowest round trips of all accepted ones, ties in order of arrival |
| `ClockSynchronizer.CandidateOverHistory` | web/src/player/ClockSynchronizer.ts:46-50 | the candidate is the median over the five lowest round trips of the entire history |
| `ClockSynchronizer.BestOfShortest` | web/src/player/ClockSynchronizer.ts:46-50 | the best five of the retained twelve are the best five of all, so the candidate is their median |
| `ClockSynchronizer.PongCountsOnce` | web/src/player/ClockSynchronizer.ts:27-29 | a ping is remembered until its pong arrives, which counts at most once; an unexpected one changes nothing |
| `ClockSynchronizer.MedianSplits` | web/src/player/ClockSynchronizer.ts:46-50 | the median has nothing greater before it and nothing smaller after it in sorted order |
| `ClockSynchronizer.SampleErrorBound` | internal/realtime/handler.go:143-173 | with the receive stamp taken any time before the read returned, an accepted sample lies between theta - down and theta + (up - down)/2 |
| `ClockSynchronizer.SampleIs` | web/src/player/ClockSynchronizer.ts:31-42 | what a flight measures: the true offset plus half of what the way there took longer than the way back, less the early stamp; accepted exactly with a round trip between 0 and 5000 ms |
| `ClockSynchronizer.TextbookBoundIff` | internal/realtime/handler.go:144-146 | the bound of half the round trip (section 8 of RFC 5905) holds if and only if the receive stamp is not taken before the ping was sent |
| `ClockSynchronizer.TextbookBoundFails` | internal/realtime/handler.go:144-146 | a concrete flight: off by 10 ms on a measured round trip of 0 |
| `ClockSynchronizer.SlewBound` | web/src/player/ClockSynchronizer.ts:59-65 | an update moves at most 25 ms and never past the candidate |
| `ClockSynchronizer.SlewProgress` | web/src/player/ClockSynchronizer.ts:59-65 | an update whose candidate is more than 8 ms away moves toward it by exactly the smaller of 25 ms and a fifth of the gap; one within 8 ms moves nothing |
| `ClockSynchronizer.EstimateFollows` | web/src/player/ClockSynchronizer.ts:55-65 | every accepted sample after the first slews the estimate toward the new candidate; nothing else moves it |
| `ClockSynchronizer.EstimateReaches` | web/src/player/ClockSynchronizer.ts:52-65 | over every run: while the candidate stays the same, an estimate at most 125 + 25 k ms away is within 8 ms after k + 13 accepted samples |
| `ClockSynchronizer.Synchronizer.Measure` | web/src/player/ClockSynchronizer.ts:31-42 | round trip and offset of a pong, unless the round trip is implausible |
| `ClockSynchronizer.EstimateMovesSlowly` | web/src/player/ClockSynchronizer.ts:55-65 | once there is a sample no event moves the estimate by more than 25 ms |
| `ClockSynchronizer.ClockErrorBound` | web/src/player/ClockSynchronizer.ts:22-66 | if every one-way delay is at most D, then after the first accepted sample the estimate stays in [theta - D, theta + D/2] over every run |
| `Sorting.StableSortIsStable` | web/src/player/ClockSynchronizer.ts:43-43 | the sort keeps every element, orders by key, and keeps elements of equal key in order |
| `RateLimiter.Limiter.Allow` | internal/security/ratelimit.go:23-42 | performs the bucket transition for one key and leaves all others alone |
| `RateLimiter.Limiter.Cleanup` | internal/security/ratelimit.go:43-52 | the deleting loop removes exactly the buckets idle since before the cut |
| `RateLimiter.DrawTable` | internal/security/ratelimit.go:23-42 | a request is granted exactly if the bucket, full for a new key and otherwise refilled by rate * elapsed time up to burst, holds a whole token, which it takes |
| `RateLimiter.SweepTable` | internal/security/ratelimit.go:43-52 | a sweep forgets exactly the keys not asked for since before now - maxIdle |
| `RateLimiter.SteadyRequestsAreGranted` | internal/security/ratelimit.go:23-42 | in every run on a forward clock, whatever others ask and whatever is swept, who asks no faster than the rate is never refused |
| `RateLimiter.EvictionIsInvisible` | internal/security/ratelimit.go:23-52 | if every sweep satisfies maxIdle * rate >= burst, then for every interleaving on a forward clock the answers are those of a limiter that never evicts |
| `RateLimiter.ImpatientSweepIsVisible` | internal/security/ratelimit.go:43-52 | conversely, for a whole-numbered burst, a sweep that forgets buckets before they can have refilled changes some answer |
| `RateLimiter.InvisibleIffPatient` | internal/security/ratelimit.go:43-52 | sweeping with a given idle time is invisible in all runs if and only if idle time * rate >= burst |
| `RateLimiter.WindowBound` | internal/security/ratelimit.go:32-41 | if all sweeps are patient, any window grants one key at most burst + rate * length requests |
| `RateLimiter.WindowBoundIffPatient` | internal/security/ratelimit.go:23-52 | that bound holds for every window of every run sweeping with a given idle time if and only if idle time * rate >= burst |
| `RateLimiter.ImpatientSweepBreaksWindow` | internal/security/ratelimit.go:43-52 | an impatient sweep lets two full bursts into a window that allows for less |
| `MultipartUpload.AcceptableIffPermutation` | internal/media/service.go:139-152 | what the server accepts are exactly the permutations of 1..n with a non-blank tag each |
| `MultipartUpload.CheckParts` | internal/media/service.go:143-152 | the loop accepts exactly in-range, tagged and pairwise distinct parts, and reports a duplicate only if there is one |
| `MultipartUpload.CompleteParts` | internal/media/service.go:139-153 | accepts exactly those lists and passes on the same parts as 1, 2, ..., n |
| `MultipartUpload.CeilDivIsRoundedUp` | web/src/api/upload.ts:58-58 | browser and server compute the same number of parts |
| `MultipartUpload.AnyOrderIsWellSigned` | web/src/api/upload.ts:73-80 | any rearrangement of a complete set of signatures is accepted |
| `MultipartUpload.TakenIsComplete` | web/src/api/upload.ts:73-80 | conversely an answer that is taken has a non-empty address for every number of the batch and for no other |
| `MultipartUpload.BatchesOfTen` | web/src/api/upload.ts:61-65 | the batches hold the numbers ten by ten, the last one shorter |
| `MultipartUpload.StorePart` | web/src/api/upload.ts:85-97 | one part succeeds exactly if the store answers with a tag, and then reports that tag for the part; otherwise which error |
| `MultipartUpload.StoreBatch` | web/src/api/upload.ts:81-98 | the parts of a batch succeed exactly if each does, and are reported in order with the tags of their own ranges |
| `MultipartUpload.UploadBatch` | web/src/api/upload.ts:61-98 | a batch succeeds exactly if its signatures arrive and are complete and all its parts are stored and tagged; a request that fails, times out or is aborted fails it, and which error says what went wrong; it appends its parts in order, each with the tag the store answered for its own byte range under the address signed for its own number |
| `MultipartUpload.UploadParts` | web/src/api/upload.ts:55-101 | succeeds exactly if part size, count (at most 10000) and every batch are good and it was not aborted, and then has uploaded parts 1..n with their own ranges in order, each reported with the tag the store answered for its range under its signed address |
| `MultipartUpload.SlicesTileFile` | web/src/api/upload.ts:87-90 | the byte ranges are non-empty, at most a part long, adjacent, and concatenated they are the file |
| `MultipartUpload.UploadIsAccepted` | internal/media/service.go:139-153 | what a successful upload reports (with non-blank tags) the server accepts and passes on unchanged |
| `MultipartUpload.UploadAndComplete` | web/src/api/upload.ts:54-101 | browser and server together: completed exactly if every batch succeeds, nobody aborts and no tag is blank; the object store is then handed the parts 1..n, each with the tag it gave itself for the byte range of that number |
| `MultipartUpload.Spaces` | internal/media/service.go:145-145 | what counts as blank: the 25 white space characters of Unicode |
| `WebSocketClient.ReachableInvariants` | web/src/realtime/WebSocketClient.ts:38-125 | in every run: running means exactly one of a socket and an armed reconnect timer, stopped means neither and nothing pending; every acknowledged send is pending or settled, never both, and settles once |
| `WebSocketClient.OutcomeIff` | web/src/realtime/WebSocketClient.ts:126-178 | over every run a request is resolved if and only if its acknowledgement was delivered by the then current socket, without a throwing listener, while it was pending; and rejected if and only if while it was pending its refusal was so delivered, it timed out, or the connection was lost or given up |
| `WebSocketClient.OutcomeStep` | web/src/realtime/WebSocketClient.ts:134-151 | a callback settles exactly the requests it is a cause for, in the way it is a cause for |
| `WebSocketClient.FinalReasons` | web/src/realtime/WebSocketClient.ts:95-113 | the reasons that are final, with their codes and texts, and that there are no others |
| `WebSocketClient.AttemptsStep` | web/src/realtime/WebSocketClient.ts:74-77 | attempts count the losses that are retried and start over exactly once a connection has proved stable |
| `WebSocketClient.StatusStep` | web/src/realtime/WebSocketClient.ts:61-119 | the status shown after every callback |
| `WebSocketClient.TimersStep` | web/src/realtime/WebSocketClient.ts:67-78 | clock sampling and the stability timer run exactly from the opening of the current socket until it is lost or given up |
| `WebSocketClient.SocketStep` | web/src/realtime/WebSocketClient.ts:55-90 | what becomes of every socket in every callback |
| `WebSocketClient.SendStep` | web/src/realtime/WebSocketClient.ts:157-178 | a request is pending from when it was sent, and sent on an open socket only |
| `WebSocketClient.Backoffs` | web/src/realtime/WebSocketClient.ts:120-120 | the bases of the delays: 1, 2, 4, 8 and from then on 10 seconds |
| `WebSocketClient.StaleSocketChangesNothing` | web/src/realtime/WebSocketClient.ts:67-89 | callbacks of a socket that is not the current one change nothing but that socket |
| `WebSocketClient.LossSettlesEverything` | web/src/realtime/WebSocketClient.ts:82-95 | once the current connection is lost or given up nothing is pending and everything sent has settled |
| `WebSocketClient.SettledForGood` | web/src/realtime/WebSocketClient.ts:134-151 | over every run the log of settled promises only grows and never repeats one |
| `WebSocketClient.StoppedStaysStopped` | web/src/realtime/WebSocketClient.ts:43-60 | a stopped client opens nothing and arms nothing until told to connect |
| `WebSocketClient.LossIsFinalOrRetried` | web/src/realtime/WebSocketClient.ts:91-125 | a loss stops the client exactly for the final reasons, and otherwise arms the jittered backoff, between 0.8 and 12 seconds |
| `WebSocketClient.DelayBounds` | web/src/realtime/WebSocketClient.ts:120-124 | every armed delay is between 0.8 and 1.2 times its base, hence at least 0.8 and less than 12 seconds |
| `WebSocketClient.DelaysGrowIff` | web/src/realtime/WebSocketClient.ts:120-124 | whatever jitter is drawn the next delay is no shorter if and only if the attempt counter is below 3 |
| `WebSocketClient.DelayShrinks` | web/src/realtime/WebSocketClient.ts:120-124 | two draws: from 8.8 to 8 seconds between the fourth and the fifth attempt |
| `WebSocketClient.Connection.Connect` | web/src/realtime/WebSocketClient.ts:38-42 | performs the connect transition |
| `WebSocketClient.Connection.Disconnect` | web/src/realtime/WebSocketClient.ts:43-50 | performs the disconnect transition, rejecting everything pending exactly once |
| `WebSocketClient.Connection.Open` | web/src/realtime/WebSocketClient.ts:55-66 | disarms the reconnect timer and makes a new socket current |
| `WebSocketClient.Connection.OnOpen` | web/src/realtime/WebSocketClient.ts:67-78 | performs the open callback |
| `WebSocketClient.Connection.OnMessage` | web/src/realtime/WebSocketClient.ts:126-155 | resolves the addressed pending request on an acknowledgement, rejects it on a refusal, and drops any other answer; a throwing listener loses the answer (OutcomeIff says this over runs) |
| `WebSocketClient.Connection.OnClose` | web/src/realtime/WebSocketClient.ts:82-86 | performs the close callback |
| `WebSocketClient.Connection.Lose` | web/src/realtime/WebSocketClient.ts:91-125 | performs the loss transition, which does nothing to a stopped client |
| `WebSocketClient.Connection.RejectAll` | web/src/realtime/WebSocketClient.ts:189-195 | the loop rejects every pending promise once and empties the map |
| `WebSocketClient.Connection.Send` | web/src/realtime/WebSocketClient.ts:157-178 | sends only on an open socket; a request to be acknowledged becomes pending |
| `SyncController.Controller.SetRoomState` | web/src/player/SyncController.ts:74-80 | takes exactly forced or newer states, and aligns the element exactly when a forced state, a change of medium or (for members) a jump finds it 750 ms off |
| `SyncController.Controller.Apply` | web/src/player/SyncController.ts:164-220 | aligns exactly under that rule, to the timeline's position; sets the room's rate; schedules or cancels playing, pauses, resets the drift controller and shows the status as the phase demands |
| `SyncController.Controller.Seek` | web/src/player/SyncController.ts:340-379 | drops a seek to where the element is, performs it if the element can take it, and otherwise keeps it; only a performed one opens the settle and grace windows |
| `SyncController.Controller.RetrySeek` | web/src/player/SyncController.ts:381-383 | a kept position is sought like any other, and without one nothing happens |
| `SyncController.Controller.Tick` | web/src/player/SyncController.ts:222-263 | what a check does, exactly: nothing unless the room plays past its anchor; the room's rate while the element is disturbed, a host's, or settling; the drift controller is asked exactly for a member that plays undisturbed, its rate is applied, and exactly if it decides to seek the position is set, or kept to be set, to the timeline's; one more start exactly if the element stands still with data, nothing is suspected or confirmed, autoplay is free and a host is not applying a state |
| `SyncController.Controller.CheckMember` | web/src/player/SyncController.ts:246-262 | the part of the check for a member that plays undisturbed |
| `SyncController.DriveThenCheck` | web/src/player/SyncController.ts:222-263 | after any run of events whatsoever the next check starts the element exactly if it stands still although the room plays past its anchor, it has data, nothing is suspected or confirmed, autoplay is free and a host is not applying a state |
| `SyncController.Controller.PlayTimerFires` | web/src/player/SyncController.ts:310-319 | the scheduled start happens exactly if the room still plays, no stall is confirmed and autoplay is free |
| `SyncController.Controller.PlaySettles` | web/src/player/SyncController.ts:326-338 | a refused start blocks autoplay and shows so; one that works lifts the block |
| `SyncController.Controller.NativePause` | web/src/player/SyncController.ts:542-550 | a member's element that pauses by itself while the room plays is started again, unless a stall is confirmed, a state is being applied or autoplay is blocked |
| `SyncController.Controller.LoadedMetadata` | web/src/player/SyncController.ts:385-400 | a kept seek is retried; the room is told the medium and its length to the nearest millisecond |
| `SyncController.Controller.Heartbeat` | web/src/player/SyncController.ts:562-576 | sends exactly position, paused and readyState of the bound element |
| `SyncController.Controller.UpdateHeartbeat` | web/src/player/SyncController.ts:578-587 | heartbeats run exactly for a host with its element |
| `SyncController.Controller.VideoEnds` | web/src/player/SyncController.ts:552-560 | exactly a host sends that the medium has ended, at its length |
| `SyncController.Controller.OnUserPlay` | web/src/player/SyncController.ts:92-98 | exactly a host's play is sent, with the element's position, and lifts the block on autoplay |
| `SyncController.Controller.OnUserPause` | web/src/player/SyncController.ts:100-107 | exactly a host's pause is sent, with the element's position; it pauses the element and cancels a scheduled start |
| `SyncController.Controller.OnUserRateChange` | web/src/player/SyncController.ts:118-125 | exactly a host's rate is sent, with the element's position, and set |
| `SyncController.SentPosition` | web/src/player/SyncController.ts:92-98 | positions and lengths are sent to the nearest millisecond |
| `SyncController.SeekableIff` | web/src/player/SyncController.ts:340-379 | where the element can be set to: into a seekable range with 50 ms of tolerance, or up to a known end |
| `SyncController.AlignsIff` | web/src/player/SyncController.ts:171-190 | a state aligns the element if and only if it is forced, or the medium changed, or for a member the timeline jumped; the room neither buffers nor loads; and the element is 750 ms away |
| `SyncController.Controller.ApplyCorrection` | web/src/player/SyncController.ts:265-288 | applies the rate; a hard seek is carried out like any seek, nothing else touches the position; a rate correction is shown once it has lasted 2000 ms |
| `SyncController.Controller.Attach` | web/src/player/SyncController.ts:56-72 | aligns by force with the current state, and starts the checks and, for a host, the heartbeats |
| `SyncController.Controller.SetHost` | web/src/player/SyncController.ts:82-90 | aligns by force exactly when the role changes, and then heartbeats exactly as a host; otherwise changes nothing |
| `SyncController.Controller.Waiting` | web/src/player/SyncController.ts:402-426 | suspects a stall and arms its confirmation for 1800 ms later, or for the end of the 2500 ms after an own seek made before, and does not move it any more |
| `SyncController.Controller.BufferConfirmFires` | web/src/player/SyncController.ts:426-463 | exactly while playing and starved the stall is confirmed; a host then pauses and reports it, a member sends telemetry, each once |
| `SyncController.Controller.CanPlay` | web/src/player/SyncController.ts:466-477 | cancels the suspicion and checks at once, or after a confirmed stall waits 600 ms more |
| `SyncController.Controller.RecoveryFires` | web/src/player/SyncController.ts:479-540 | once data flows a host whose report the room has not answered yet stays held; otherwise the stall ends, drift is ignored for 3500 ms, exactly a reported stall is reported over, and the element is started exactly if the room plays and autoplay is free |
| `SyncController.Controller.OnUserSeek` | web/src/player/SyncController.ts:109-116 | a member's seek has no effect; a host's moves the element like any seek, pauses it if the room plays, and is sent |
| `SyncController.Controller.Realign` | web/src/player/SyncController.ts:132-134 | aligns by force with the current state |
| `SyncController.Controller.ResumeLocal` | web/src/player/SyncController.ts:127-130 | lifts the block on autoplay and starts the element unless a stall is confirmed |
| `SyncController.Controller.Suspend` | web/src/player/SyncController.ts:136-138 | pauses exactly the element of a member |
| `SyncController.DriveHost` | web/src/player/SyncController.ts:179-190 | over any run of room states of one medium, checks, stalls, timers, answers and play, pause and rate actions a host's controller never writes the position |
| `SyncController.DriveMember` | web/src/player/SyncController.ts:254-288 | while the room plays on without a discontinuity a member's position is written at most once per decision of the drift controller to seek (plus once for a seek kept from before), and those decisions are at least twelve seconds apart |
| `SyncController.DriveArmed` | web/src/player/SyncController.ts:402-463 | over any run between arming a confirmation and its coming due, it is due within 2500 ms of an own seek if and only if one was made since, less than 2500 ms before it is due |
| `SyncController.SeekAfterStall` | web/src/player/SyncController.ts:340-379 | a concrete run: a stall at 0 and a seek at 1000; the confirmation stays due at 1800, the grace lasts until 3500 |
| `SyncController.DriveHeldHost` | web/src/player/SyncController.ts:479-540 | over any run a host that has reported a stall while the room is not buffering never starts its element again, until the room buffers, the report is refused, its recovery is acknowledged, or it stops being host |
| `SyncController.StallThenPause` | web/src/player/SyncController.ts:426-463 | a concrete run to such a host: it stalls and reports, the room buffers, the host pauses |
| `SyncController.BufferingReleases` | web/src/player/SyncController.ts:194-216 | a buffering state that finds data flowing releases it: the stall ends and host_ready is sent |
| `EndToEnd.AlignedIffDiscontinuity` | web/src/player/SyncController.ts:171-190 | between two playing states of one server run with the same medium a member is aligned if and only if a seek or media change was accepted in between and it is 750 ms off; a host never is |
| `EndToEnd.CloseReasons` | web/src/realtime/WebSocketClient.ts:95-113 | the codes and reasons the server closes with, and what the browser takes them for |
| `EndToEnd.ClosedByRoom` | internal/rooms/actor.go:331-332 | from the room to the browser: a member whose connection a message closes has a client that stops, showing why, exactly if it was replaced, kicked or sent out with the room, and that dials again after a shutdown |
| `EndToEnd.FollowRefreshes` | web/src/player/SyncController.ts:290-308 | a controller that takes a later state of the run without a discontinuity in between leaves the position alone, whatever heartbeats did to the anchor |
| `EndToEnd.FollowPage` | web/src/pages/RoomPage.tsx:145-154 | over any interleaving of messages from the room, hand-overs from the page and every other event of the controller (binding the element, changes of role, realigning, checks, stalls, timers, answers, user actions) the controller object holds exactly the state and revision the page's transition function says it follows |
| `EndToEnd.CatchUp` | web/src/player/SyncController.ts:74-80 | at any point of any run of room, queues and browsers a controller that receives what waits on its open connection and is handed the page's state holds exactly the server's state and revision |
| `EndToEnd.SettledIsNearServer` | web/src/player/SyncController.ts:222-263 | clock, timeline and drift loop composed: with all delays at most D, from any state of the controller, an ideal player is after 987 ticks and until the medium ends within 420 ms + rate * D of the timeline at the true server time, and within 1 ms more of the position the server computes |

## Left out

- Several readings of the clock within one message are one reading; a checkpoint's time is the message's time.
- A run may go on after a shutdown message, although the actor ends there; a restart is a step of the composed system.
- Timers of the actor are not objects: a grace period's expiry is a message that may come at any time, which includes the times it can come.
- React's scheduling: the page hands its current state to the controller at any moment; a passive effect that runs late with an older state is not modelled.
- The member list in a snapshot, nicknames and server times in envelopes: no property depends on them.
- Rows of the database: only the stored checkpoint is kept, and refusals are inputs. Roles in membership rows, guest sessions and media metadata are not modelled.
- RoomNotices.NoticeStep: connections with fewer than two free places in their queue are excluded; what a full one meets is stated by FullQueue and over runs by Replication.OnlySlowConsumersAreClosed.
- EndToEnd.ClosedByRoom: the same.
- DriftCorrector.LoopConverges: the player is ideal (it advances exactly at the rate it was given, seeks take no time); stalls and clock noise are outside the loop.
- EndToEnd.SettledIsNearServer: the clock's estimate stands still while the loop runs; a slew of at most 25 ms per sample is a drift the loop then works off.
- Unbinding the element (`destroy`) and the timers' own clock are not modelled: a timer may fire at any moment while it is armed.
- SyncController.DriveHost: seeks by the user, forced states (snapshots, attaching, a change of role) and changes of medium are meant to move the host and are not part of such a run.
- SyncController.DriveMember: states of other phases, media or epochs are not part of such a run; what they do is stated by SetRoomState.
- WebSocketClient.ReachableInvariants: callbacks arrive one at a time and not from inside another one.
- MultipartUpload.UploadParts: why a request failed (its deadline, an abort, the network, a status) is one case; deleting the upload after a failure is not modelled.
- `Complete` beyond the part list (head request, size check, status changes), presigning, and races of completion with abort.
- Authentication, HTTP and admin handlers, chat, invites, the broadcast overlay, the user interface: plumbing or easy members.
- Floating-point rounding and the overflow of 64-bit integers.

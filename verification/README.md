# Formal model of the signaling, media and recording core

A Dafny model of the parts of this repository in which concurrency, object
lifetimes and byte layouts decide whether the system is right, with proofs
about all their runs and inputs.

* **Room lifecycle** (`RoomProtocol`, `RoomInvariants`, `RoomTheorems`,
  `RoomEnds`, `RoomTeardown`, `RoomOrphans`, `RoomRuns`, `LeaveRuns`). One room id
  as the realtime instances, Redis and the sfu nodes drive it. Each Redis command, each sfu request and each stretch of code
  between two awaits is one event. A run is any sequence of events: an event
  whose turn has not come changes nothing, so every theorem about a sequence of
  events is about every interleaving. Commands may fail at any point.
  `Reachable(s)` says that some run ends in `s`.
* **The same, as the services write it** (`Deployment`, `RoomsService`,
  `SignalingService`, `SignalingGateway`, with `RoomSteps` and `RoomFrames`).
  The methods have the control flow of the originals. At every await,
  `Deployment.Turn` lets any events of others happen. The proof obligation of
  every method is that its fields stay what the protocol makes of the events so
  far, so the theorems about runs hold for the code between any two awaits.
* **The sfu process** (`SfuRooms`, `SfuInvariants`, `SfuAwaits`, `SfuTheorems`,
  `SfuRuns`, and in the services' form `MediaRoomsService`, with `SfuSteps` and
  `SfuFrames`). Rooms, pending creations, peers and transports as objects told
  apart by reference, and the load counters. `closeRoom` awaits the end of a
  recording and does not look at the room again. `Reachable(s, v)` names the
  runs a theorem is about: `AnyRun`, all of them; `OpenAtClose`, those in which
  no close resumes on a room that is closed already; `EmptyAtClose`, those in
  which none resumes on a room with somebody in it. A caller ensures the second
  by not calling `closeRoom` (`OneClose`), and the third by not calling
  `createTransport` (`NoLateJoin`), while a close of that room awaits. What a
  close does that resumes too late is stated exactly as well.
* **The worker pool** (`WorkerLoads`, `WorkerPool`). The least-loaded allocator
  as a class, and its load as a sequence of counts.
* **Recording** (`Bytes`, `Rtp`, `Wav`, `SessionProtocol`, `SessionTheorems`,
  `Drift`, `RecordingSession`, `RecordingOwnership`). RTP parsing, the WAV file
  on disk, the closing of a session under interleaving, the clock drift, and who
  holds what the recorder opens.
* **Routes** (`Routes`). The path printer and the route table.

Histories (`h`, `cameFrom`, `handed`, `patched`, `madeFor`, `creator`) only
remember what happened; no transition reads them. `RoomRuns`,
`LeaveRuns` and `SfuRuns` spell out short runs that end in the situations the findings are about.

## Findings

Where the code does not do what one might expect, the model keeps the code and a
member says exactly when it does:

* `addPeer` runs outside the try block of `join`, so a rejected EXPIRE leaves a
  peer nobody removes (`ThrownJoinLeavesGhost`, `GhostIsReachable`); a leave that
  finds no record leaves its peer as well (`EndedLeaveLeavesGhost`), which takes
  no failure at all (`UnrecordedGhostIsReachable`).
* A record outlives its members if and only if no leave got past its script, for
  instance when the last one's HLEN was rejected (`WhatIsLeft`,
  `RecordLeftIsReachable`).
* The script answers 1 also when the keys are already gone, so the last two
  leavers can both close the MediaRoom (`BothSendTheClose`), which is how a
  second `closeRoom` comes about below.
* A joiner that has read the peers hash and enters the socket room after a leave
  has ended keeps the peer that left (`HandleDisconnect`, `FarewellCanBeMissed`).
* After a lost sfu removal the MediaRoom is still there when everybody has left
  (`OrphanFreedom`, `OrphanIsReachable`).
* A producer can reach a joiner neither by backfill nor by broadcast
  (`ProducerMissWindow`), and two members can know of each other one way only
  (`PeerMissWindow`; `MissesAreReachable` has both).
* A failed `createTransport` can take down the transports of a peer created
  under the same id meanwhile (`FailureDisturbs`, `DisturbanceIsReachable`).
* A second `closeRoom` while the first one awaits a recording closes the room at
  once; the first one then lowers the worker's counter again and forgets a room
  made under the same id meanwhile (`LateCloseMiscounts`, `LateCloseForgets`).
  A peer that comes in during that await is stranded in the closed room
  (`LateJoinStrands`).
* A tap at the end of `produce` can open recording resources for a peer that has
  left the room (`TapProduced`, `DepartedPeerIsRecorded`).
* RTP padding is handed to the decoder (`PaddingIsDecoded`).
* A recording of 2^32 − 36 bytes or more is never closed on disk
  (`CompletedClose`), and one whose peer is removed is never readable
  (`RemovedPeerIsUnreadable`).
* Every filled gap makes a recording one frame longer than the RTP clock
  (`DriftLaw`), because the silence covers the next frame as well.

## Model

| member | source | states |
|---|---|---|
| `RoomTheorems.PeerConservation` | apps/realtime/src/rooms/rooms.service.ts:83-132 | In every run, for any number of sockets and instances and any failures, the peers hash is exactly the peers whose HSET has run and whose own HDEL has not: no close erases anybody else, wherever a join lands between `isEmpty`, `hkeys` and the script (issue #24). |
| `RoomTheorems.HandlerMembership` | apps/realtime/src/signaling/signaling.service.ts:19-57 | In every run a handler that has not reached its HSET, or is behind its HDEL, is not in the peers hash, and one in between is, whatever the others do. |
| `RoomEnds.ThrownJoinLeavesGhost` | apps/realtime/src/signaling/signaling.service.ts:19-56 | In every run, a join that has thrown, wherever it threw, has left its peer behind in the peers hash if and only if its last command was the EXPIRE behind its HSET (which is outside the try block) or the HDEL of the rollback. |
| `RoomEnds.EndedLeaveLeavesGhost` | apps/realtime/src/signaling/signaling.service.ts:169-212 | In every run, a leave that is over has left its peer behind in the peers hash if and only if it ended at its GET, which found no record or was rejected, or at its HDEL. |
| `RoomEnds.OthersKeepMembership` | apps/realtime/src/rooms/rooms.service.ts:83-132 | No event but a handler's own changes whether its peer is in the peers hash, the closing script of others included, or its socket in the socket room. |
| `RoomEnds.SocketsInRoom` | apps/realtime/src/signaling/signaling.gateway.ts:34-37 | In every run the socket room is exactly the sockets that have passed their `client.join` and not disconnected. |
| `RoomRuns.GhostIsReachable` | apps/realtime/src/signaling/signaling.service.ts:24-26 | The run in which a socket creates the room and its EXPIRE is rejected leaves it in the peers hash with its join rejected. |
| `LeaveRuns.UnrecordedGhostIsReachable` | apps/realtime/src/signaling/signaling.service.ts:169-174 | A run in which no command fails: a socket stands behind `getOrCreateRoom` and in front of its HSET while another one joins, leaves and closes the room; it then joins and leaves, its GET finds no record, and it stays in the peers hash. |
| `RoomTheorems.ReadSawMembers` | apps/realtime/src/rooms/rooms.service.ts:72-81 | `existingPeers` of a joiner is exactly the other peers that were members at the moment of its HGETALL. |
| `RoomTheorems.MutualVisibility` | apps/realtime/src/signaling/signaling.service.ts:22-33 | Of two joiners that both read the peers hash while both were members, at least one has the other in `existingPeers`, in any interleaving with leaves and closes on any instances. |
| `RoomTheorems.PeerMissWindow` | apps/realtime/src/signaling/signaling.gateway.ts:34-50 | Of two members, one in the socket room has not heard of an announced other, by answer or by `newPeer`, if and only if the other was added after its read and announced before its `client.join`. |
| `RoomTheorems.ProducerMissWindow` | apps/realtime/src/signaling/signaling.gateway.ts:34-48 | A joiner in the room has missed a broadcast producer of a current member if and only if `addProducer` ran after the joiner looked and the broadcast ran before its `client.join`. |
| `RoomTheorems.MissedProducerIsLate` | apps/realtime/src/signaling/signaling.service.ts:29-48 | Whatever a joiner missed was recorded after its peers-hash read and broadcast before its socket entered the room. |
| `RoomRuns.MissesAreReachable` | apps/realtime/src/signaling/signaling.gateway.ts:34-48 | A run of two sockets after which both are members in the room, one has announced itself and broadcast a producer, and the other has heard of neither. |
| `RoomTheorems.BackfillCameFromMembers` | apps/realtime/src/signaling/signaling.service.ts:35-46 | A producer a joiner knows of without having been in the room for its broadcast belonged to a peer that was a member at the read, and was recorded before that peer's hash was fetched. |
| `RoomInvariants.AfterKeeps` | apps/realtime/src/rooms/rooms.service.ts:26-156 | The invariant behind these theorems holds after every sequence of events. |
| `RoomTeardown.WhatIsLeft` | apps/realtime/src/signaling/signaling.service.ts:169-212 | Once every member of an occupied room has left, in any interleaving and with any Redis commands rejected and any requests to the sfu lost: the peers hash holds exactly the peers whose leave ended at its GET or HDEL; the room record is gone if and only if some leave got past its script; a producers hash is left only of a peer whose leave ended by its DEL; a close was sent by exactly those whose leave ended with it; the MediaRoom is left if and only if it was there and the removal of one of its peers was lost or no close sent behind the last of them arrived, and holds exactly the peers whose removal was lost or never sent. |
| `RoomOrphans.OrphanFreedom` | apps/realtime/src/signaling/signaling.service.ts:169-212 | Once every member of an occupied room has left, in any interleaving, with any number of peers, Redis answering and any requests to the sfu lost: the room record, the peers hash and all producers hashes are gone; somebody has sent the close behind everybody's removal; and the MediaRoom is still there if and only if it was there and the removal of one of its peers was lost or no close sent behind the last of them arrived. It then holds exactly the peers whose removal was lost. |
| `RoomTeardown.OwnStepCounts` | apps/realtime/src/signaling/signaling.service.ts:169-212 | From wherever a teardown is, whatever has failed, the next step of a peer that is not done is enabled and lowers its rank: a leave is over after at most members + 11 steps of its own. |
| `RoomTeardown.TeardownRun` | apps/realtime/src/signaling/signaling.service.ts:169-212 | Every run of leaves, whatever fails, keeps the teardown invariant: the record is gone exactly if somebody's script has found the hash empty, the hash holds exactly the peers that have not got past their HDEL, and the sfu exactly those whose removal was not tried yet or was lost. |
| `RoomRuns.OrphanIsReachable` | apps/realtime/src/signaling/signaling.service.ts:178-206 | A run in which the only socket leaves, its removal is lost and its close arrives: everything in Redis is gone and the MediaRoom still holds the peer. |
| `LeaveRuns.RecordLeftIsReachable` | apps/realtime/src/signaling/signaling.service.ts:184-187 | A run in which the only socket leaves and its HLEN is rejected: the record is left over an empty hash. |
| `LeaveRuns.BothSendTheClose` | apps/realtime/src/redis/redis-scripts.ts:15-21 | From every state in which a room has two members that have joined: if both look before either runs its script, both scripts answer 1 and both leaves send the close of the MediaRoom to the sfu, where both arrive. |
| `LeaveRuns.TwoClosesAreReachable` | apps/realtime/src/signaling/signaling.service.ts:197-206 | Such a run from the start: two sockets join, produce and leave together, and the sfu gets two closes of one room. |
| `RoomFrames.OthersKeepOwn` | apps/realtime/src/signaling/signaling.service.ts:19-57 | No sequence of events of other sockets, requests and creations changes a handler's position, its reads or its own creation. |
| `Deployment.Redis.CloseRoomIfEmpty` | apps/realtime/src/redis/redis-scripts.ts:15-21 | Answers 1 exactly when the peers hash was empty, also when there was nothing left to delete, and then the record is gone; otherwise nothing changes. |
| `Deployment.Deployment.Await` | apps/realtime/src/signaling/signaling.service.ts:19-57 | At an await anything others can do may happen; afterwards the handler stands where it stood, or where a rejection puts it, having come from there, and its place in the peers hash is what its position says. |
| `RoomsService.GetOrCreateRoom` | apps/realtime/src/rooms/rooms.service.ts:26-52 | Ends in front of `addPeer` behind the EXPIRE of an existing record or behind a creation that succeeded, in a throw at the GET, at the EXPIRE or behind a creation that failed, or still waiting for a creation that has not settled; the caller is in no case in the peers hash. |
| `RoomsService.FindPending` | apps/realtime/src/rooms/rooms.service.ts:39-45 | Without a record the caller shares exactly the creation its instance has in flight, and starts one exactly if there is none. |
| `RoomsService.CreateRoom` | apps/realtime/src/rooms/rooms.service.ts:158-168 | The creation, whose three awaits may each fail, ends settled: failed, or created with a record that names the node that was picked. |
| `RoomsService.AddPeer` | apps/realtime/src/rooms/rooms.service.ts:83-88 | HSET then EXPIRE; tells exactly whether the peer is in the hash, also when it throws. |
| `RoomsService.GetOtherPeers` | apps/realtime/src/rooms/rooms.service.ts:72-81 | The answer is the peers hash at that moment without the caller, and it is the handler's recorded read. |
| `RoomsService.GetProducers` | apps/realtime/src/rooms/rooms.service.ts:145-156 | The answer is that peer's producers hash at that moment; it is added to the handler's reads and the earlier reads are untouched, whatever ran meanwhile. |
| `RoomsService.RemovePeer` | apps/realtime/src/rooms/rooms.service.ts:95-101 | HDEL then DEL; when it does not throw the peer is out of the peers hash and its producers hash is gone, and when it throws the peer is still in the hash if and only if the HDEL was rejected. |
| `RoomsService.UndoAdd` | apps/realtime/src/signaling/signaling.service.ts:49-56 | The rollback leaves the peer in the hash exactly when its HDEL failed. |
| `RoomsService.IsEmpty` | apps/realtime/src/rooms/rooms.service.ts:103-107 | Tells exactly whether the peers hash is empty; the leaver is not in it. |
| `RoomsService.CloseRoom` | apps/realtime/src/rooms/rooms.service.ts:114-132 | Answers false only at a script that found somebody in the peers hash, and true only behind a script that found it empty and a deletion each of the keys HKEYS read before. It throws only at a command that was rejected; if that is one of the deletions, each of the other keys was deleted or its deletion is still on its way. The leaver is not in the hash. |
| `SignalingService.Join` | apps/realtime/src/signaling/signaling.service.ts:19-57 | The answer names exactly the other members at the read and everything read from their producers hashes, and the joiner is a member; a throw tells exactly whether the peer is left behind. |
| `SignalingService.SfuRemovePeer` | apps/realtime/src/signaling/signaling.service.ts:178-186 | If the request arrived the peer is in no MediaRoom of the node; leave goes on either way. |
| `SignalingService.SfuCloseRoom` | apps/realtime/src/signaling/signaling.service.ts:204-206 | If the request arrived, a MediaRoom still there has somebody in it; the leave ends with it either way. |
| `SignalingService.Leave` | apps/realtime/src/signaling/signaling.service.ts:169-212 | Ends in every case. The peer is still in the peers hash if and only if the leave ended at its GET or its HDEL. The result says how it ended: at a GET that found no record; at a check or a script that found others in the hash, so that nothing is closed; at a command other than the sfu's that was rejected, the last event of the run; or with its close. |
| `SignalingService.Produce` | apps/realtime/src/signaling/signaling.service.ts:98-119 | One after the other, each at an event of its own: the owner was in the peers hash, the record named a node, and that node had a MediaRoom; then, and if and only if the call succeeds, the producer is recorded. |
| `SignalingGateway.Join` | apps/realtime/src/signaling/signaling.gateway.ts:28-51 | When it returns, the joiner still holds its answer, every producer of the backfill has been emitted to it, and everybody else in the socket room has been told of it; when it throws, it tells exactly whether the peer is left behind. |
| `SignalingGateway.Produce` | apps/realtime/src/signaling/signaling.gateway.ts:77-94 | A producer that was answered was recorded and broadcast. |
| `SignalingGateway.CastWasRecorded` | apps/realtime/src/signaling/signaling.gateway.ts:83-91 | In every reachable state a producer that was broadcast has been recorded. |
| `SignalingGateway.HandleDisconnect` | apps/realtime/src/signaling/signaling.gateway.ts:164-173 | A joined socket's disconnect runs the whole leave, which ends as `SignalingService.Leave` says, by the event `ended`. Unless it threw, exactly the sockets that have passed their `client.join` and not disconnected when the gateway gets its turn are told with `peerClosed`. |
| `LeaveRuns.FarewellCanBeMissed` | apps/realtime/src/signaling/signaling.gateway.ts:34-37 | A run at whose end a joiner is in the room with a peer in its answer that has left; when that leave ended the joiner was not yet in the socket room, so a `peerClosed` emitted then does not reach it. |
| `SfuTheorems.WorkerAccounting` | apps/sfu/src/media-rooms/media-rooms.service.ts:31-72 | In every run in which no close resumes on a closed room, a worker's counter is the number of its rooms plus the creations in flight booked on it. |
| `SfuTheorems.ClampNeverBites` | apps/sfu/src/workers/worker-pool.service.ts:66-75 | In those runs, whenever a counter is lowered it was positive, so `Math.max(0, …)` never decides anything. |
| `SfuTheorems.SingleRouter` | apps/sfu/src/media-rooms/media-rooms.service.ts:31-62 | In those runs a room id never has two live rooms, nor a live one and a creation in flight, with `pendingRooms.delete` as a step of its own. |
| `SfuTheorems.SingleCreation` | apps/sfu/src/media-rooms/media-rooms.service.ts:31-62 | In every run, no two creations in flight are for the same room id, and an id that leads to a room has none in flight. |
| `SfuTheorems.RegistrationNeverOverwrites` | apps/sfu/src/media-rooms/media-rooms.service.ts:54-62 | In every run `rooms.set` never meets an existing entry, and then the id leads to the new room. |
| `SfuTheorems.SharedCreation` | apps/sfu/src/media-rooms/media-rooms.service.ts:38-48 | In every run all callers that shared one creation got the same MediaRoom object. |
| `SfuTheorems.NoOrphanedTransport` | apps/sfu/src/media-rooms/media-rooms.service.ts:99-130 | In every run, every open WebRtcTransport is the current send or recv slot of a MediaPeer object that is still in its room. |
| `SfuTheorems.ClosedRoomIsEmpty` | apps/sfu/src/media-rooms/media-rooms.service.ts:247-267 | In every run in which no close resumes on an occupied room, a closed room has neither peers nor open transports. |
| `SfuTheorems.LateTransportIsClosed` | apps/sfu/src/media-rooms/media-rooms.service.ts:99-119 | In every run: once the peer a pending call captured is removed, then whatever happens, also if the same id is created again, the arrival of the call's transport changes neither the open transports, nor any slot, nor who is in any room. |
| `SfuTheorems.TransportLands` | apps/sfu/src/media-rooms/media-rooms.service.ts:99-130 | In every run: a transport that arrives is open and in its slot if nobody removed its peer since the call began, and otherwise changes neither the open transports nor any slot. |
| `SfuAwaits.CurrentExactlyIfNotRemoved` | apps/sfu/src/media-rooms/media-rooms.service.ts:114-119 | While its call waits, a captured peer object is the one in its room if and only if it was at the start and no event removed that id since: a removed object is never current again. |
| `SfuTheorems.NoZombiePeer` | apps/sfu/src/media-rooms/media-rooms.service.ts:99-138 | In every run, each peer in a room that is not closed owns an open transport or the `createTransport` call that created it is still in flight. |
| `SfuTheorems.FailureDisturbs` | apps/sfu/src/media-rooms/media-rooms.service.ts:109-112 | In every run, a failed creation leaves the other transports alone if and only if its peer existed before, or nobody holds the id now, or the holder has no open transport; in a room that is not closed that means empty slots. |
| `SfuRuns.FailureDisturbsAnother` | apps/sfu/src/media-rooms/media-rooms.service.ts:99-138 | From every reachable state with a room the peer is not in: when one call creates it, it is removed, another call creates it again and gets its transport, the failure of the first call takes that transport down. The run keeps every proviso but `NoLateJoin`. |
| `SfuRuns.DisturbanceIsReachable` | apps/sfu/src/media-rooms/media-rooms.service.ts:99-138 | The same as a run from the start of the process. |
| `SfuTheorems.LateCloseMiscounts` | apps/sfu/src/media-rooms/media-rooms.service.ts:247-267 | In a reachable state in which another call closed the room while its recording stopped, the late close keeps the accounting if and only if a room with that id is on the same worker again, or there is none and the counter is zero. |
| `SfuTheorems.LateCloseForgets` | apps/sfu/src/media-rooms/media-rooms.service.ts:247-267 | The late close takes an open room off the registry if and only if the id was made again. |
| `SfuRuns.SecondCloseMiscounts` | apps/sfu/src/media-rooms/media-rooms.service.ts:247-267 | From every state with an empty recording room: closed by two calls before its recording has stopped, the counters are right afterwards if and only if the room was all its worker had. |
| `SfuRuns.MiscountIsReachable` | apps/sfu/src/media-rooms/media-rooms.service.ts:247-267 | A run with two rooms on one worker after which the worker's counter is wrong. |
| `SfuRuns.ForgottenRoomIsReachable` | apps/sfu/src/media-rooms/media-rooms.service.ts:247-267 | A run in which the room is made again between the two closes, after which the new room is open and its id leads nowhere. |
| `SfuTheorems.LateJoinStrands` | apps/sfu/src/media-rooms/media-rooms.service.ts:99-138 | A peer that is in the room when its close resumes is in the closed room, as the same object, in every continuation exactly as long as no failed `createTransport` has discarded it: no removal reaches it, and it never comes back. |
| `SfuRuns.StrandedPeerIsReachable` | apps/sfu/src/media-rooms/media-rooms.service.ts:247-267 | A run in which a peer comes in while the close awaits and is there when it resumes. |
| `SfuAwaits.OneCloseIsEnough` | apps/sfu/src/media-rooms/media-rooms.service.ts:258-266 | If no `closeRoom` comes for a room whose close awaits, no close ever resumes on a closed room. |
| `SfuAwaits.NoLateJoinIsEnough` | apps/sfu/src/media-rooms/media-rooms.service.ts:258-266 | If no `createTransport` comes for a room whose close awaits, no close ever resumes on an occupied room. |
| `SfuInvariants.AfterKeeps` | apps/sfu/src/media-rooms/media-rooms.service.ts:31-267 | Every sequence of events keeps the part of the invariant that names rooms, creations, peers and transports, and with the respective proviso also the part that counts workers or the part that has every slot served. |
| `MediaRoomsService.Service.GetOrCreateRoom` | apps/sfu/src/media-rooms/media-rooms.service.ts:31-52 | Returns the existing room, or awaits the pending or a new creation and ends with the room it made, a throw, or still waiting. |
| `MediaRoomsService.Service.LeastLoadedWorker` | apps/sfu/src/workers/worker-pool.service.ts:49-61 | The loop's choice has no more routers than any other worker. |
| `MediaRoomsService.Service.CreateRouterOrReleaseWorker` | apps/sfu/src/media-rooms/media-rooms.service.ts:64-72 | In the state in which the router arrives the id has no room, and afterwards it leads to the new, empty one; when it does not arrive the worker's booking is given back and nothing is registered. |
| `MediaRoomsService.Service.CreateTransport` | apps/sfu/src/media-rooms/media-rooms.service.ts:99-130 | A caller that gets a transport gets one that is open and in its slot, of a peer that is in the room, whatever runs meanwhile; an unknown room changes nothing. |
| `MediaRoomsService.Service.CloseLateTransport` | apps/sfu/src/media-rooms/media-rooms.service.ts:116-119 | The peer was removed during creation: nothing is open or held that was not before. |
| `MediaRoomsService.Service.EvictPeer` | apps/sfu/src/media-rooms/entities/media-room.entity.ts:38-49 | Closes both transports of the peer and removes it, or does nothing. |
| `MediaRoomsService.Service.RemovePeer` | apps/sfu/src/media-rooms/media-rooms.service.ts:224-232 | Afterwards the id is nobody's in that room. |
| `MediaRoomsService.Service.CloseRoom` | apps/sfu/src/media-rooms/media-rooms.service.ts:247-267 | Occupied, with nothing done, exactly when somebody is in the room; when it succeeds the id has no room afterwards, also when a recording had to be stopped first; only the stop of a recording can make it throw. Any other calls may run meanwhile, closes of the same room included. |
| `WorkerPool.WorkerPoolService.ReserveWorker` | apps/sfu/src/workers/worker-pool.service.ts:44-64 | Picks the first least loaded worker, raises only its count, and no count exceeds the rounded-up mean of the largest total the pool has ever held. |
| `WorkerPool.WorkerPoolService.TrackRouterClosed` | apps/sfu/src/workers/worker-pool.service.ts:66-75 | Lowers only that worker's count, not below zero; a foreign worker changes nothing. |
| `WorkerPool.WorkerPoolService.LeastLoaded` | apps/sfu/src/workers/worker-pool.service.ts:49-59 | The scan finds the first index of a minimum. |
| `WorkerPool.WorkerPoolService.OnModuleInit` | apps/sfu/src/workers/worker-pool.service.ts:14-31 | As many distinct workers as configured, all idle. |
| `WorkerPool.WorkerPoolService.WithinBound` | apps/sfu/src/workers/worker-pool.service.ts:44-75 | In every state of the pool each count is at most ceil(P / n), P the largest total so far. |
| `WorkerLoads.LoadBound` | apps/sfu/src/workers/worker-pool.service.ts:44-75 | The load bound for every sequence of reservations and closes, from any idle pool. |
| `WorkerLoads.BurstStaysUnderWaterline` | apps/sfu/src/workers/worker-pool.service.ts:49-61 | Consecutive reservations never raise the maximum above max(old maximum, minimum + 1) while the minimum stays. |
| `WorkerLoads.BurstLevelsExactly` | apps/sfu/src/workers/worker-pool.service.ts:49-61 | After k reservations the spread is at most 1 if and only if k reaches the deficit of the initial loads. |
| `WorkerLoads.ReserveKeepsLevel` | apps/sfu/src/workers/worker-pool.service.ts:49-61 | A spread of at most 1 stays so under reservations. |
| `WorkerLoads.LeastNeverFalls` | apps/sfu/src/workers/worker-pool.service.ts:49-61 | Reservations never lower the minimum. |
| `Rtp.ReadPacket` | apps/sfu/src/recording/recording.service.ts:202-231 | The parser, with its early returns, never reads out of range and computes the parsed packet. |
| `Rtp.ParserInvertsFormat` | apps/sfu/src/recording/recording.service.ts:202-231 | On all datagrams: the parser returns a timestamp and payload if and only if the datagram is a version 2 packet per sections 5.1 and 5.3.1 of RFC 3550 (0 to 15 CSRCs, any extension) with exactly that timestamp and a non-empty rest. |
| `Rtp.ParseSerialized` | apps/sfu/src/recording/recording.service.ts:213-231 | Every serialised packet with a payload is accepted with its timestamp and payload. |
| `Rtp.SerializeRead` | apps/sfu/src/recording/recording.service.ts:202-231 | Every accepted datagram is the serialisation of a valid packet with the timestamp and the payload returned. |
| `Rtp.PaddingIsDecoded` | apps/sfu/src/recording/recording.service.ts:206-231 | The padding bit is ignored: the packet is accepted, and the decoder gets what section 5.1 of RFC 3550 calls the payload if and only if the packet is not padded. |
| `Bytes.Get32Put32` | apps/sfu/src/recording/recording.service.ts:230-230 | Reading a big-endian 32-bit field returns the number that was written. |
| `Bytes.GetLE32PutLE32` | apps/sfu/src/recording/recording.service.ts:312-318 | Reading a little-endian 32-bit field returns the number that was written. |
| `Bytes.Put32Get32` | apps/sfu/src/recording/recording.service.ts:230-230 | Writing a 32-bit field that was read restores its bytes. |
| `Wav.BuildWavHeader` | apps/sfu/src/recording/recording.service.ts:261-281 | The thirteen writes into the buffer yield exactly the RIFF/WAVE header with both sizes zero. |
| `Wav.PatchRiffSize` | apps/sfu/src/recording/recording.service.ts:312-314 | The first positioned write changes the RIFF size and nothing else. |
| `Wav.PatchDataSize` | apps/sfu/src/recording/recording.service.ts:316-318 | The second positioned write changes the data size and nothing else. |
| `Wav.PatchedFileReads` | apps/sfu/src/recording/recording.service.ts:261-281 | A chunk-walking reader finds mono, 16 kHz, 16-bit PCM and exactly the samples in a file with both sizes patched, if and only if they are a whole number of samples. |
| `Wav.UnpatchedFileIsRejected` | apps/sfu/src/recording/recording.service.ts:261-281 | A file whose sizes were not patched is no RIFF file. |
| `SessionProtocol.SilenceIsThird` | apps/sfu/src/recording/recording.service.ts:239-239 | The silence formula is a third of the gap, rounded down. |
| `SessionTheorems.ClosedOnce` | apps/sfu/src/recording/recording.service.ts:304-323 | In every interleaving of packets, closing calls and the removal of the peer, the socket and the file are closed at most once and at most one call gets past the guard. |
| `SessionTheorems.FrozenOnceClosed` | apps/sfu/src/recording/recording.service.ts:197-200 | From the close on `bytesWritten` and the length of the file never change, and once the file is closed nothing is written to it. |
| `SessionTheorems.DecoderInput` | apps/sfu/src/recording/recording.service.ts:231-257 | The decoder is handed exactly the payloads of the accepted packets before the first close, in order. |
| `SessionTheorems.DeclaredSizes` | apps/sfu/src/recording/recording.service.ts:312-318 | In every run the file is the header and the audio of those packets, and each declared size is zero or exact. |
| `SessionTheorems.PatchedByItsCall` | apps/sfu/src/recording/recording.service.ts:304-323 | The header is complete exactly when the one call that passed the guard has resumed from its second patch. |
| `SessionTheorems.WavRoundTrip` | apps/sfu/src/recording/recording.service.ts:197-323 | In every run, reading the file by the rules of RIFF yields exactly the silence and decoded frames in order, if and only if it was patched and the audio is whole samples. |
| `SessionTheorems.CompletedClose` | apps/sfu/src/recording/recording.service.ts:304-323 | A close whose file operations succeed, whatever runs at its awaits, finishes with a readable file if and only if the RIFF size fits into 32 bits; otherwise it throws and the file handle stays open. |
| `SessionTheorems.RemovedPeerIsUnreadable` | apps/sfu/src/media-rooms/entities/media-room.entity.ts:59-66 | A recording whose peer is removed while it runs is closed but never becomes readable. |
| `SessionTheorems.WholeSamples` | apps/sfu/src/recording/recording.service.ts:233-258 | The audio is whole samples as soon as every decoded frame is. |
| `RecordingSessions.RecordingSession.constructor` | apps/sfu/src/recording/recording.service.ts:154-195 | A new session has the unpatched header on disk and nothing recorded. |
| `RecordingSessions.RecordingSession.HandleRtpPacket` | apps/sfu/src/recording/recording.service.ts:197-259 | Parses, fills the gap, remembers the timestamp even if decoding throws, and appends; the whole new state is the protocol's for the parsed datagram. |
| `RecordingSessions.RecordingSession.FillGap` | apps/sfu/src/recording/recording.service.ts:233-245 | Appends exactly the silence for the gap and counts it. |
| `RecordingSessions.RecordingSession.CloseRecordingSession` | apps/sfu/src/recording/recording.service.ts:304-323 | A call that finds the session closed does nothing; the call that closed it and returns leaves a file that reads as the audio recorded until the call. |
| `RecordingSessions.RecordingSession.Abandon` | apps/sfu/src/media-rooms/entities/media-room.entity.ts:59-66 | The entity's close closes socket and file once and patches nothing. |
| `Drift.DriftLaw` | apps/sfu/src/recording/recording.service.ts:230-258 | For an in-order stream of 20 ms frames across any wraps of the timestamp: 3S − E = 960(1 + k) − (ticks lost to rounding in the k filled gaps). |
| `Drift.RecordingTracksClock` | apps/sfu/src/recording/recording.service.ts:230-258 | Hence 960(1 + k) − 2k ≤ 3S − E ≤ 960(1 + k) for the bytes a session has counted, in every run. |
| `Drift.GapAcrossWrap` | apps/sfu/src/recording/recording.service.ts:234-234 | The unsigned 32-bit difference of two timestamps is the true difference of the unwrapped clocks, across a wrap. |
| `RecordingOwnership.TapPeer` | apps/sfu/src/recording/recording.service.ts:91-152 | For every combination of failures of the seven calls it awaits: what it returns, which of the three slots are left holding something open and which are empty, and that every open plain transport, recording consumer and returned session stays in a slot of a holder. |
| `RecordingOwnership.TapTransport` | apps/sfu/src/recording/recording.service.ts:116-152 | The consume, session and connect failures, and that of the clean-up, each give the result and leave the slots as stated. |
| `RecordingOwnership.Resume` | apps/sfu/src/recording/recording.service.ts:91-152 | The stretch of a tap between two awaits takes it to the next stage with the slots of that stage, and keeps ownership. |
| `RecordingOwnership.FinishTaps` | apps/sfu/src/recording/recording.service.ts:43-56 | Several taps, their stretches interleaved in any order, each end with the result and the slots that their own failures determine, and ownership is kept. |
| `RecordingOwnership.StopPeerRecording` | apps/sfu/src/recording/recording.service.ts:283-302 | Empties the three slots and closes what was in them, so that ownership is kept. |
| `RecordingOwnership.StartRoomRecording` | apps/sfu/src/recording/recording.service.ts:29-57 | Exactly the peers with an open audio producer are tapped, all of them started before any is awaited; whatever the interleaving, each tap ends with the result and the slots that its own failures determine, and ownership is kept. |
| `RecordingOwnership.StopRoomRecording` | apps/sfu/src/recording/recording.service.ts:59-74 | Nothing the recorder ever opened for the room is open afterwards. |
| `RecordingOwnership.TapProducerIfRecording` | apps/sfu/src/recording/recording.service.ts:76-90 | Nothing changes unless the room records, the producer is audio and no open recording consumer is there; otherwise it ends as the tap ends. Ownership is kept. |
| `RecordingOwnership.TapProduced` | apps/sfu/src/media-rooms/media-rooms.service.ts:164-168 | The end of `produce`, with the peer looked up before its await. If the tap goes ahead, every open recording resource of the room is in a slot of one of its peers if and only if the peer is still one of them or the tap leaves nothing open, which depends on its failures alone: it does if it gets a consumer and does not have to clean up after a failed connect, so also if it throws at the start of its session. |
| `RecordingOwnership.ProduceAcrossRemoval` | apps/sfu/src/media-rooms/media-rooms.service.ts:158-170 | When the peer is removed during that await, something is open afterwards that no peer of the room holds if and only if the room records, the producer is audio and the tap leaves something open. |
| `RecordingOwnership.DepartedPeerIsRecorded` | apps/sfu/src/media-rooms/media-rooms.service.ts:158-170 | A concrete call: a recording room whose only peer leaves during its `produce` has no peers, and the departed peer is being recorded. |
| `RecordingOwnership.ProducerClosed` | apps/sfu/src/recording/recording.service.ts:133-138 | A closed producer empties the slots. |
| `RecordingOwnership.FindAudioProducer` | apps/sfu/src/recording/recording.service.ts:325-331 | Finds an open audio producer if and only if there is one. |
| `RecordingOwnership.MediaRoom.StopPeerRecording` | apps/sfu/src/media-rooms/entities/media-room.entity.ts:59-79 | The entity's own stop leaves nothing open in the peer's slots. |
| `RecordingOwnership.MediaRoom.RemovePeer` | apps/sfu/src/media-rooms/entities/media-room.entity.ts:38-49 | Closes all the removed peer holds, removes exactly it, and keeps ownership, among the others and with it. |
| `RecordingOwnership.MediaRoom.GetOrCreatePeer` | apps/sfu/src/media-rooms/entities/media-room.entity.ts:19-28 | A known peer is returned as it is, a new one holds nothing. |
| `Routes.SplitJoin` | libs/media-contracts/src/build-path.ts:6-16 | Splitting undoes joining exactly for segments without slashes. |
| `Routes.JoinSplit` | libs/media-contracts/src/build-path.ts:6-16 | Joining undoes splitting for every string. |
| `Routes.PathRoundTrip` | libs/media-contracts/src/build-path.ts:5-18 | For every pattern: the built path matches it and gives back exactly its parameters if and only if none of them is empty or contains a slash. |
| `Routes.FullPathSegments` | libs/media-contracts/src/build-path.ts:23-26 | The full path is the controller's prefix and the route's own segments. |
| `Routes.PatternSegments` | libs/media-contracts/src/media-room.routes.ts:8-22 | The segments of each pattern of the table. |
| `Routes.PathMatches` | libs/media-contracts/src/media-room.routes.ts:8-22 | A path built for a route matches another pattern of the table exactly in the listed cases. |
| `Routes.RoutesAreUnambiguous` | apps/sfu/src/media-rooms/media-rooms.controller.ts:29-178 | With the same HTTP method, a path built for a route matches that route's pattern and no other. |
| `Routes.SlashChangesRoute` | libs/media-contracts/src/build-path.ts:8-11 | With a slash in the room id the path for closing a room matches the removal of a peer. |

## Left out

- Lifetimes: no key expires during a run, and EXPIRE has no effect other than that it can fail.
- Values in the hashes: display names, media kinds and RTP capabilities are not represented; a producer id determines its owner.
- Chat, pausing and resuming, `connectTransport`, `consume` and the configuration services: single-branch plumbing over the same checks.
- `SfuRegistryService.pickLeastLoaded`: a creation may pick any node, so two racing creations may pick different ones and the later SET wins, as in the original.
- Foreign code: mediasoup, the Opus decoder, sockets, the file system and socket.io appear as arbitrary success, failure or output. Writes without a position land in the order they are issued and do not fail; a failed positioned write leaves the file as it was.
- A command that fails after it took effect: a failure is either before the effect, or is the failure of the next command of the same handler.
- Broadcasts: one emit reaches all sockets of the room at once; delivery by an adapter across instances is not part of this model.
- One join per socket, and a disconnect is handled only for a socket whose join has finished; a join interrupted by its own disconnect is not part of this model.
- RoomsService.GetOrCreateRoom: a caller whose shared creation never settles is reported as still waiting instead of waiting for ever.
- SfuTheorems.WorkerAccounting: holds for runs in which no close resumes on a closed room, like `SingleRouter`; `LateCloseMiscounts` and `LateCloseForgets` say exactly when a close that does so does no harm.
- SfuTheorems.ClosedRoomIsEmpty: holds for runs in which no close resumes on an occupied room; `LateJoinStrands` says what such a close does.
- MediaRoomsService.Service.GetOrCreateRoom: keeps MediaRoom and MediaPeer objects as references into maps, because their objects are also named by suspended calls; RecordingOwnership has them as heap objects.
- RecordingOwnership.TapPeer: operations on a room run one at a time, each to its end, but for the taps of one `startRoomRecording`, which interleave; overlapping taps of one peer, and removals or closed producers while taps run, are not part of this model, nor are display names, file names and meeting.json. What a session that failed to start had opened itself is not followed. The operations do not rely on mediasoup closing a transport's consumers with it.
- SessionProtocol.SilenceIsThird: the source's floating-point division and multiplication are taken over the reals.
- Routes.PathMatches: a router's own matching is taken to be segment by segment and case-sensitive, with a parameter standing for any non-empty segment.

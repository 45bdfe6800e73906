# Verified model of the carcar control software

This project models the control logic of the carcar robot and proves properties of it: the recovery
supervisor of its navigation and the action client beneath it, the serial protocol of its motor board and
the encoder chain on top, the voxel walk and the segment test of its depth audits, the network proxy it
uses in the field, the inspection missions with their camera interlock, and several gates, mailboxes and
handshakes.

Every stateful component is modelled the same way. A datatype holds the component's fields, functions give
the effect of every callback, timer, request and service answer, and a class with those fields has one
method for each operation, proved to compute the function. What the component promises is then proved by
induction over sequences of arbitrary events: messages in any order, any answers of sockets and services,
any clock readings that do not go backwards, and steps of other threads between any two critical sections.
Loops of the source are loops here, proved against the function that specifies them.

| file | what it models |
|---|---|
| `BoardBytes.dfy`, `RosmasterProtocol.dfy`, `RosmasterCommands.dfy`, `EncoderChain.dfy` | the board's report parser, its command frames, and the unwrapping of its encoder counters |
| `RecoveryRuntime.dfy`, `RecoverySupervisor.dfy`, `RecoveryReactions.dfy` | action sessions and leaves, the two-child supervisor above them, and what it does with everything a tick can find |
| `BoundedAction.dfy`, `ActionHistory.dfy` | the action client a session stands for, and its flags told by the history of a run |
| `VoxelWalk.dfy`, `SegmentBox.dfy` | the 3-D voxel walk and the slab test |
| `ProxyRelay.dfy`, `ProxyPool.dfy`, `ProxyFailover.dfy` | the proxy's relay, health pool, and handling of one connection |
| `InspectionMission.dfy`, `CameraRestore.dfy`, `InspectionHold.dfy` | the mission engine, the console's steps that turn and restore the camera, and the driver's hold and servo interlock |
| `MapMatch.dfy`, `LocalizationLatch.dfy`, `DepthLayerSwitch.dfy` | the match of scans against the map, the localization readiness latch, and the depth-layer switch |
| `SendQueue.dfy`, `SendOutcome.dfy` | the console's websocket sender, and what becomes of what it is given |
| `MapRestore.dfy`, `RestoreOutcome.dfy` | the map restore handshake and the mapping tasks around it, and when each outcome is reached |
| `MecanumKinematics.dfy` | wheel targets and wheel odometry |

Some properties one would expect of the code hold only under a condition. Each is stated as an equivalence, with
an input that fails where one exists:

- The voxel walk ends in the endpoint's voxel exactly when the endpoint is not on two voxel planes where a lower
  axis moves down and a higher one up (`VoxelWalk.EndsInEndVoxel`; `VoxelWalk.SomeWalkOvershoots` has such a segment).
- The slab test is right about every box exactly when no component of the segment is below 1e-9 without being
  zero (`SegmentBox.RightUnlessNearlyFlatExactly`), and is never off by more than that margin
  (`SegmentBox.NeverFarOff`).
- The localization latch means what it should in every run exactly when both thresholds are positive, or the other
  limits keep out the cycles it would misjudge (`LocalizationLatch.ReadyIsEarnedExactly`).
- Motion with depth on and an unhealthy camera is allowed after a tick exactly when the two interface checks
  of a degrading tick disagree (`DepthLayerSwitch.DepthMotionNeedsHealth`); `DepthLayerSwitch.DisagreementHappens`
  is a run in which they do.
- A failed mapping session relays nothing unless its launch in the new mode was still under way when it failed, which
  the source allows when the launch takes longer than the start limit (`RestoreOutcome.FailedRelaysExactly`, with
  `RestoreOutcome.FailedCanRelay`).
- A stale health probe is ignored unless the failures since it started are a multiple of 2^32
  (`ProxyPool.ProbeCountsUnlessFailedSince`).
- Turning the console's data channel on keeps the order of control states exactly when no usable state waits behind
  a write and no deferred one was overtaken (`SendQueue.SwitchingKeepsOrderExactly`); `SendQueue.ChannelCanReorder`
  is a run that reorders them.
- The send queue makes one write at a time exactly when the empty text is not broadcast
  (`SendQueue.OneWriteExactlyWithoutEmpty`). The gateway only broadcasts dumped JSON, so this concerns only another
  caller of `HttpServer::broadcast`, and the sender's other results are about dumped JSON.

## Model

| member | source | states |
|---|---|---|
| BoardBytes.I16RoundTrip | src/carcar_hardware/src/rosmaster_protocol.cpp:44-49 | a 16-bit value sent low byte first is read back |
| BoardBytes.I32RoundTrip | src/carcar_hardware/src/rosmaster_protocol.cpp:51-58 | an unbounded count sent in four bytes is read back modulo 2^32 in the signed range |
| RosmasterProtocol.ChecksumOfBuffer | src/carcar_hardware/src/rosmaster_protocol.cpp:128-147 | the loop's checksum is the sum over the frame, and a frame of declared length 2 never checks, so that the payload size never underflows |
| RosmasterProtocol.ChunkInvariance | src/carcar_hardware/src/rosmaster_protocol.cpp:96-148 | from any parser state, feeding a then b leaves the same buffer, readings and counters as feeding their concatenation |
| RosmasterProtocol.ReadsDoNotMatter | src/carcar_hardware/src/rosmaster_protocol.cpp:96-148 | the same for any number of reads: decoding does not depend on how reads split the stream |
| RosmasterProtocol.ParserIsGreedy | src/carcar_hardware/src/rosmaster_protocol.cpp:103-147 | the parser's reading of a buffer is a greedy leftmost scan: frames are well-checksummed, disjoint and in order, and no frame begins inside skipped noise |
| RosmasterProtocol.GreedyIsTheParser | src/carcar_hardware/src/rosmaster_protocol.cpp:103-147 | there is only one such scan, the parser's |
| RosmasterProtocol.NoByteIsLost | src/carcar_hardware/src/rosmaster_protocol.cpp:103-147 | bytes skipped, bytes framed and the residue, put together in order, are the bytes fed |
| RosmasterProtocol.CounterCountsFrames | src/carcar_hardware/src/rosmaster_protocol.cpp:141-146 | the frame counter grows by the number of frames found, modulo 2^64 |
| RosmasterProtocol.ResidueIsBounded | src/carcar_hardware/src/rosmaster_protocol.cpp:103-127 | after any feed fewer than 66 bytes are kept |
| RosmasterProtocol.ResidueIsAFrameToBe | src/carcar_hardware/src/rosmaster_protocol.cpp:103-127 | what is kept is a prefix of some valid frame, except three bytes whose length byte is already illegal; and conversely |
| RosmasterProtocol.RosmasterProtocolParser.Feed | src/carcar_hardware/src/rosmaster_protocol.cpp:96-148 | the in-place loop computes the specified parser step |
| RosmasterProtocol.RosmasterProtocolParser.ParsePayload | src/carcar_hardware/src/rosmaster_protocol.cpp:155-190 | each report kind changes exactly its readings and counter |
| RosmasterCommands.FinishCommand | src/carcar_hardware/src/rosmaster_protocol.cpp:60-69 | the length byte and checksum of a finished command |
| RosmasterCommands.CommandIsAFrame | src/carcar_hardware/src/rosmaster_protocol.cpp:60-69 | with the device byte exchanged a finished command is a valid report: the constant 5 added to commands makes both checksums agree |
| RosmasterCommands.ReportRoundTrip | src/carcar_hardware/src/rosmaster_protocol.cpp:96-148 | a report sent in front of anything is decoded to its function and payload, and the rest is read as if it stood alone |
| RosmasterCommands.ScaledI16RoundTrip | src/carcar_hardware/src/rosmaster_protocol.cpp:71-86 | a value accepted for sending is decoded to its thousandfold truncated toward zero; non-finite and out-of-range values are refused |
| RosmasterCommands.MotionCommandDecodes | src/carcar_hardware/src/rosmaster_protocol.cpp:221-231 | a motion command has the header of its kind and carries the car type and the three scaled speeds, or nothing is built |
| RosmasterCommands.EncoderReportMeans | src/carcar_hardware/src/rosmaster_protocol.cpp:155-165 | an encoder report gives the four counts wrapped to 32 bits, whatever follows them in its payload, and changes no inertial reading |
| RosmasterCommands.MpuReportMeans | src/carcar_hardware/src/rosmaster_protocol.cpp:167-179 | whatever the parser showed before, an MPU report gives the three rates in 3754.9ths, the second and third reversed, and the accelerations in 1671.84ths; nothing else changes but its counters |
| RosmasterCommands.IcmReportMeans | src/carcar_hardware/src/rosmaster_protocol.cpp:181-190 | the same for the ICM report, in thousandths and with no sign reversed |
| RosmasterCommands.OtherReportsAreCounted | src/carcar_hardware/src/rosmaster_protocol.cpp:155-190 | a report of another kind, or too short for its kind, is counted as a frame and changes no reading |
| EncoderChain.EncoderTracker.UpdateExportedState | src/carcar_hardware/src/rosmaster_system.cpp:640-673 | the driver's update of its relative counts |
| EncoderChain.DeltaRecovers | src/carcar_hardware/src/rosmaster_system.cpp:121-126 | the wrapped difference of two wrapped counts is the true difference when that fits 32 bits |
| EncoderChain.PrefixDecodes | src/carcar_hardware/src/rosmaster_protocol.cpp:155-165 | any prefix of a stream of reports is decoded to exactly the reports that arrived completely |
| EncoderChain.RelativeCountsAreTrue | src/carcar_hardware/src/rosmaster_system.cpp:640-673 | end to end: however bytes are grouped into reads and reads into cycles, the relative counts are the last true counts that arrived minus the first seen, if each seen jump of a wheel in use lies in [-2^31, 2^31) |
| BoundedAction.FinishedMeansEnded | src/carcar_navigation/include/carcar_navigation/bounded_action.hpp:203-209 | in every run the client is finished exactly when every goal it records has ended |
| ActionHistory.GoalFlagsMean | src/carcar_navigation/include/carcar_navigation/bounded_action.hpp:77-168 | over every run, told by calls and callbacks alone: a recorded goal is over exactly when the server said so or a poll gave it up long after it was replaced, taken as the server last answered, and cancelled if taken too late and otherwise only because the client was cancelled or the goal given up |
| ActionHistory.FinishedMeansAllOver | src/carcar_navigation/include/carcar_navigation/bounded_action.hpp:203-209 | so the client is finished exactly when each recorded goal is over in that sense |
| ActionHistory.ForgottenExactly | src/carcar_navigation/include/carcar_navigation/bounded_action.hpp:50-57 | a new goal makes the client forget exactly the goals of which nothing more can be heard |
| ActionHistory.AckShownExactly | src/carcar_navigation/include/carcar_navigation/bounded_action.hpp:203-209 | after a callback the cancel shows as confirmed exactly when every goal is over or its cancel was confirmed |
| ActionHistory.StatusMeans | src/carcar_navigation/include/carcar_navigation/bounded_action.hpp:47-115 | success is shown exactly when the last result of the latest goal was success, rejection exactly when that goal was refused, a cancel exactly when one was asked for; limits are timed from the latest send and the first cancel |
| ActionHistory.TimeoutsAreEarned | src/carcar_navigation/include/carcar_navigation/bounded_action.hpp:124-160 | a timeout is declared, with its reason, exactly when handing over threw or a poll found the latest goal without answer or result, or a cancel unconfirmed, for longer than its limit; and what is shown as accepted is the latest answer until a timeout or a new goal |
| ActionHistory.ThrownCancelsAreNoted | src/carcar_navigation/include/carcar_navigation/bounded_action.hpp:210-236 | a cancel call that throws is noted, exactly for a goal the server took and that had not been cancelled yet |
| BoundedAction.CancelReachesEveryGoal | src/carcar_navigation/include/carcar_navigation/bounded_action.hpp:77-101 | a requested cancel was handed to the transport for every goal the server took, even one taken after the request |
| BoundedAction.NoWaitOutlivesItsLimit | src/carcar_navigation/include/carcar_navigation/bounded_action.hpp:124-160 | in every run, whatever callbacks cut in between its two parts, a poll leaves no wait for a response or result past its limit without a cancel, and no cancel past its limit without being declared timed out |
| BoundedAction.SendingSubmits | src/carcar_navigation/include/carcar_navigation/bounded_action.hpp:47-76 | sending acts on the visible state as the runtime's session rules say |
| BoundedAction.EverythingElseEvolves | src/carcar_navigation/include/carcar_navigation/bounded_action.hpp:77-168 | callbacks, polling, cancelling and a throwing transport keep the session rules: an ended session stays ended and a cancel request stands |
| BoundedAction.ActionClient.SendGoal | src/carcar_navigation/include/carcar_navigation/bounded_action.hpp:47-72 | forgetting settled goals, marking the replaced one and recording the new one |
| BoundedAction.ActionClient.OnResponse | src/carcar_navigation/include/carcar_navigation/bounded_action.hpp:77-101 | a goal refused, taken, or taken too late and cancelled at once |
| BoundedAction.ActionClient.PollNow | src/carcar_navigation/include/carcar_navigation/bounded_action.hpp:124-158 | the locked part of polling: orphans given up, completion refreshed, limits applied |
| BoundedAction.ActionClient.CancelNow | src/carcar_navigation/include/carcar_navigation/bounded_action.hpp:161-168 | cancels every goal taken, once, and notes a call that throws |
| RecoveryRuntime.OpenedSound | src/carcar_navigation/src/nav012_nodes.cpp:163-177 | a leaf that starts a motion goal only when the held one is over keeps at most one live |
| RecoveryRuntime.ResendStays | src/carcar_navigation/src/nav012_nodes.cpp:186-188 | sending a new path may revive only the goal that is still the held one, even when its end arrives in between |
| RecoveryRuntime.LeafPollsSound | src/carcar_navigation/src/nav012_nodes.cpp:179-204 | a leaf's tick on an open session keeps the runtime sound and never raises permission |
| RecoveryRuntime.LeafSettlesSound | src/carcar_navigation/src/nav012_nodes.cpp:191-203 | a leaf whose goal is over waits for stillness with permission revoked, and clears only a finished goal |
| RecoveryRuntime.LeafHaltsSound | src/carcar_navigation/src/nav012_nodes.cpp:205-211 | halting a leaf revokes permission and cancels its goal |
| RecoveryRuntime.ObservedSound | src/carcar_navigation/src/recovery_runtime.cpp:409-419 | stillness timed from t means every odometry message since t reported a stopped vehicle |
| RecoveryRuntime.AppliedSound | src/carcar_navigation/src/nav012_nodes.cpp:145-211 | whatever leaf, callback or message comes next, at most one motion goal is live and it is the held one, and permission is not raised |
| RecoveryRuntime.LeafAnswersExactly | src/carcar_navigation/src/nav012_nodes.cpp:178-204 | a leaf succeeds exactly when its goal did, was neither cancelled nor timed out, and the vehicle rests; it faults exactly when a moving goal is unconfirmed or the vehicle does not rest in time; only its own goal changes, sent again for a new path alone |
| RecoveryRuntime.LeafSendsExactly | src/carcar_navigation/src/nav012_nodes.cpp:154-177 | a leaf sends its goal exactly when the server is there, the session and budget are, and no other goal may be moving |
| RecoveryRuntime.LeafStartsExactly | src/carcar_navigation/src/nav012_nodes.cpp:145-153 | a leaf sends nothing while a fault is latched, unprepared or when no motion is needed; otherwise it has the response time from its start |
| RecoverySupervisor.FinishStopCrosses | src/carcar_navigation/src/nav012_nodes.cpp:811-831 | a stop ends only with no live motion goal and stillness that began after settling did |
| RecoverySupervisor.BeforeChildSteers | src/carcar_navigation/src/nav012_nodes.cpp:647-731 | before the child, the active child changes and a pending stop ends only at that barrier |
| RecoverySupervisor.TaskStartedSteers | src/carcar_navigation/src/nav012_nodes.cpp:767-804 | a task starts only with an id the last task did not have, at the barrier |
| RecoverySupervisor.AfterChildGrants | src/carcar_navigation/src/nav012_nodes.cpp:732-754 | after the child, permission is left only for a live accepted goal of a running child with good inputs and no stop pending |
| RecoverySupervisor.AtMostOneMotion | src/carcar_navigation/src/nav012_nodes.cpp:145-211 | in every run at most one motion goal is live and it is the one the runtime holds |
| RecoverySupervisor.PermissionIsEarned | src/carcar_navigation/src/nav012_nodes.cpp:626-755 | in every run a tick ends with permission to move if and only if it ticked a running child, with inputs ready and no fault, and left a motion goal that is accepted, not over, not cancelled and not timed out; it names that goal and never stands beside a pending stop |
| RecoverySupervisor.ChildrenWaitForStops | src/carcar_navigation/src/nav012_nodes.cpp:626-731 | in every run a child is ticked only when no stop is pending, and the navigation child only with inputs ready and a named task |
| RecoverySupervisor.ChildChangesAtBarrier | src/carcar_navigation/src/nav012_nodes.cpp:805-831 | in every run the active child changes only in a tick, with no live motion goal and a stopped vehicle since after an earlier tick began to settle the stop; so never in the tick that asks for the stop |
| RecoverySupervisor.FaultNeedsNewTask | src/carcar_navigation/src/nav012_nodes.cpp:767-836 | in every run no halt, release or callback, and no tick but one that starts a task with a new id at the barrier, clears a fault |
| RecoverySupervisor.RecoverySupervisorNode.Tick | src/carcar_navigation/src/nav012_nodes.cpp:626-755 | one tick, with all its waits and early returns |
| RecoverySupervisor.RecoverySupervisorNode.Finish | src/carcar_navigation/src/nav012_nodes.cpp:811-831 | the barrier step |
| RecoverySupervisor.RecoverySupervisorNode.StartTask | src/carcar_navigation/src/nav012_nodes.cpp:767-804 | the start of a task over several ticks |
| RecoverySupervisor.RecoverySupervisorNode.HaltNode | src/carcar_navigation/src/nav012_nodes.cpp:756-765 | halting forgets the task and stops everything |
| RecoveryReactions.ChildTickedExactly | src/carcar_navigation/src/nav012_nodes.cpp:626-731 | in every run the exact condition for ticking a child, over all stages of a tick: no fault, perception there, no limit passed, a pending or new stop settled in full, inputs good for long enough, and for navigation localization and a task id; and which child it is |
| RecoveryReactions.TroubleStops | src/carcar_navigation/src/nav012_nodes.cpp:646-730 | in every run a changed goal, perception lost or back, missing inputs, lost localization or a passed limit makes the tick stop the vehicle, for the right child and with the new goals, or fail, with no permission and no child ticked |
| RecoveryReactions.StopsReachTheMotion | src/carcar_navigation/src/nav012_nodes.cpp:805-836 | in every run, while a stop is pending, a fault latched or the last tick failed, every goal that may still move the vehicle was asked to stop |
| RecoveryReactions.ChildEndsLeadOn | src/carcar_navigation/src/nav012_nodes.cpp:731-755 | what a ticked child leads to: final failure, recovery after localization is lost or a replan was tried, one replan, the end of the task, or back to navigation |
| RecoveryReactions.TaskStartsExactly | src/carcar_navigation/src/nav012_nodes.cpp:767-804 | in every run the exact condition for a waiting task to start, what it starts with, and when one that gets no new id fails |
| RecoveryReactions.SettledStopIsCrossed | src/carcar_navigation/src/nav012_nodes.cpp:811-831 | a stop that has begun to settle with its goal over is crossed: the first tick a still duration after a stopped vehicle was shown ticks the child it was headed for |
| RecoveryReactions.NoWaitOutlivesItsLimit | src/carcar_navigation/src/nav012_nodes.cpp:660-692 | in every run a tick that has not failed leaves no stop waiting beyond the time for cancelling or settling, and no recovery or wait for inputs beyond its limit |
| RecoveryReactions.PassedGoalsAreNoChange | src/carcar_navigation/src/nav012_nodes.cpp:732-738 | goals the child has passed are dropped from those compared with, so that the shorter list is not taken for a new task; any other list stays |
| RecoveryReactions.StillnessHasNoGaps | src/carcar_navigation/src/recovery_runtime.cpp:409-419 | in every run, since stillness began odometry has come without a gap longer than data may be old |
| RecoveryReactions.HaltStopsEverything | src/carcar_navigation/src/nav012_nodes.cpp:756-765 | in every run halting stops every leaf and goal, takes permission back, and forgets task, stop and waits |
| VoxelWalk.CrossStep | src/carcar_camera/src/depth_clearing_coverage.cpp:93-107 | the running crossing time plus one spacing is the next plane's crossing |
| VoxelWalk.TraceLine | src/carcar_camera/src/depth_clearing_coverage.cpp:74-126 | the loop adds to the visited set exactly the voxels of the three-way merge of plane crossings |
| VoxelWalk.VisitsOnlyTouched | src/carcar_camera/src/depth_clearing_coverage.cpp:107-125 | for every segment, each visited voxel's closed box meets the segment |
| VoxelWalk.VisitsEveryCrossed | src/carcar_camera/src/depth_clearing_coverage.cpp:107-125 | for every segment, each voxel whose interior the segment meets is visited, if fewer steps away than allowed |
| VoxelWalk.SomeWalkOvershoots | src/carcar_camera/src/depth_clearing_coverage.cpp:107-125 | a segment whose walk misses the endpoint's voxel |
| VoxelWalk.EndsInEndVoxel | src/carcar_camera/src/depth_clearing_coverage.cpp:107-125 | given steps for the Manhattan distance, the endpoint's voxel is visited if and only if no lower axis moving down and higher axis moving up both end on a plane; the walk then takes exactly that distance and stops there |
| SegmentBox.SegmentCrossesVoxel | src/carcar_camera/src/depth_costmap_audit.cpp:80-109 | accepts if and only if both lengths are positive and one parameter of the usable part lies in all three slabs, for all inputs |
| SegmentBox.UsablePart | src/carcar_camera/src/depth_costmap_audit.cpp:80-109 | the parameters searched are those of the segment no further along it than the usable length |
| SegmentBox.ExactUnlessNearlyFlat | src/carcar_camera/src/depth_costmap_audit.cpp:97-107 | for components that are zero or at least 1e-9 the test accepts exactly the boxes that meet the usable part of the segment |
| SegmentBox.RightUnlessNearlyFlatExactly | src/carcar_camera/src/depth_costmap_audit.cpp:88-107 | those are exactly the directions for which it does so wherever the segment starts and the box is |
| SegmentBox.NeverFarOff | src/carcar_camera/src/depth_costmap_audit.cpp:97-107 | for any components acceptance is right up to a margin of 1e-9 around the box |
| SegmentBox.AcceptsWhatTheWalkVisits | src/carcar_camera/src/depth_costmap_audit.cpp:80-109 | the box test accepts every voxel the walk visits when the whole segment is usable |
| ProxyRelay.NothingIsLost | scripts/jetson_auto_proxy/proxy.cpp:335-369 | in each direction bytes received are bytes delivered followed by the buffer, the buffer holds at most 65536, and the far side is shut only after the end with nothing left |
| ProxyRelay.ServesExactly | scripts/jetson_auto_proxy/proxy.cpp:350-366 | serving a socket cuts the relay exactly when it or a call on it fails, and otherwise moves exactly the bytes taken and given, as far as chunk and buffer have room |
| ProxyRelay.FinishedMeansDelivered | scripts/jetson_auto_proxy/proxy.cpp:340-343 | a relay that returns with both sides shut has delivered everything both ways |
| ProxyRelay.AlwaysWatching | scripts/jetson_auto_proxy/proxy.cpp:344-349 | until both sides are shut poll is asked to watch something |
| ProxyRelay.AnsweredRoundsProgress | scripts/jetson_auto_proxy/proxy.cpp:350-367 | a round in which a watched socket answers moves bytes or sees an end, or the relay is cut |
| ProxyRelay.ServeLeavesTheOther | scripts/jetson_auto_proxy/proxy.cpp:352-367 | what was asked about the second socket still holds when its turn comes: send is never offered an empty buffer |
| ProxyRelay.ShutFlowIsFrozen | scripts/jetson_auto_proxy/proxy.cpp:340-342 | nothing about a direction changes once its far side is shut |
| ProxyRelay.Relay.Turn | scripts/jetson_auto_proxy/proxy.cpp:339-368 | one turn of the loop |
| ProxyRelay.RelayAll | scripts/jetson_auto_proxy/proxy.cpp:335-369 | the loop until it ends |
| ProxyPool.ProbeCountsUnlessFailedSince | scripts/jetson_auto_proxy/proxy.cpp:220-237 | in every interleaving a probe sets health if and only if the failures since it started are a multiple of 2^32, and changes nothing otherwise |
| ProxyPool.StaleProbeIsIgnored | scripts/jetson_auto_proxy/proxy.cpp:229-230 | a probe from before a failure cannot bring the upstream back |
| ProxyPool.UsableMeansProbed | scripts/jetson_auto_proxy/proxy.cpp:240-250 | in every run an upstream is usable if and only if the last probe that counts was good and recent, and no failure is cooling down |
| ProxyPool.ProbesWaitForTheCooldown | scripts/jetson_auto_proxy/proxy.cpp:219-226 | an upstream is probed exactly when it is due and not cooling down |
| ProxyPool.ReadyKeepsOrder | scripts/jetson_auto_proxy/proxy.cpp:240-250 | the ready list is the listed order without the unusable ones |
| ProxyPool.FailureMeansCooldown | scripts/jetson_auto_proxy/proxy.cpp:251-256 | a failure blocks the upstream for the cooldown whatever probes report, while refreshes list it |
| ProxyPool.ReadyIsUsable | scripts/jetson_auto_proxy/proxy.cpp:240-250 | the ready list holds exactly the healthy, unblocked, fresh candidates |
| ProxyPool.StatusAgreesWithReady | scripts/jetson_auto_proxy/proxy.cpp:257-278 | the status page marks as selected the first upstream a connection would be offered |
| ProxyPool.Pool.Ready | scripts/jetson_auto_proxy/proxy.cpp:240-250 | the loop over the candidates |
| ProxyPool.Pool.List | scripts/jetson_auto_proxy/proxy.cpp:207-218 | the first critical section of a refresh forgets what is not listed |
| ProxyPool.Pool.Finish | scripts/jetson_auto_proxy/proxy.cpp:227-235 | the last critical section of a probe |
| ProxyFailover.ReadHeaders | scripts/jetson_auto_proxy/proxy.cpp:319-328 | reads until the head is complete and never more than 65536 bytes |
| ProxyFailover.SendAll | scripts/jetson_auto_proxy/proxy.cpp:309-318 | what is sent is a prefix, all of it exactly on success |
| ProxyFailover.SentIsWhatFits | scripts/jetson_auto_proxy/proxy.cpp:309-318 | what is sent is exactly the beginning of the data that the socket has room for, and success is all of it |
| ProxyFailover.HeadIsReadExactly | scripts/jetson_auto_proxy/proxy.cpp:319-328 | a head is read if and only if it is complete within 65536 bytes of what arrives, and nothing is read but that |
| ProxyFailover.HeadEndsAtBlankLine | scripts/jetson_auto_proxy/proxy.cpp:385-385 | the CONNECT head is the shortest beginning of the data that ends with a blank line |
| ProxyFailover.RequestLineMeans | scripts/jetson_auto_proxy/proxy.cpp:373-382 | what a request line of three words asks for: status page, tunnel, plain request or nothing served |
| ProxyFailover.StatusLineMeans | scripts/jetson_auto_proxy/proxy.cpp:398-401 | a CONNECT answer gives the number it carries, and opens the tunnel exactly for HTTP/1 and 200 |
| ProxyFailover.AttemptMeans | scripts/jetson_auto_proxy/proxy.cpp:385-410 | exactly when an upstream is served, when it is reported as failed, and when the relay starts |
| ProxyFailover.FirstTakerIsServed | scripts/jetson_auto_proxy/proxy.cpp:385-410 | upstreams are tried in order until the first that takes the request, and no further |
| ProxyFailover.RepliesMean | scripts/jetson_auto_proxy/proxy.cpp:370-411 | the exact condition for each reply of the proxy itself and for none |
| ProxyFailover.FailedAreReported | scripts/jetson_auto_proxy/proxy.cpp:386-402 | the pool hears of exactly the upstreams whose attempt failed |
| ProxyFailover.BusinessGoesToOneUpstream | scripts/jetson_auto_proxy/proxy.cpp:386-409 | of all upstreams tried only the last saw more than a CONNECT head, or anything of a plain request |
| ProxyFailover.UpstreamGetsTheStream | scripts/jetson_auto_proxy/proxy.cpp:386-407 | an upstream gets, in order and without gaps, the bytes already read and then the client's later bytes; all of them when the relay finished |
| ProxyFailover.ClientGetsTheStream | scripts/jetson_auto_proxy/proxy.cpp:394-407 | the client gets the tunnel's answer and then the upstream's bytes, in order and without gaps |
| ProxyFailover.EveryConnectionIsSafe | scripts/jetson_auto_proxy/proxy.cpp:370-411 | both for every client and every behaviour of the upstreams; the proxy answers for itself exactly when no upstream took the request |
| ProxyFailover.Handle | scripts/jetson_auto_proxy/proxy.cpp:370-411 | the handler, with its error replies and the upstreams it reports as failed |
| InspectionMission.SuccessCoversEveryPoint | src/carcar_inspection/src/executor.cpp:47-77 | across pauses, resumes and failures a succeeded task has each of its points photographed or missed, never both, and none photographed twice |
| InspectionMission.ParksLast | src/carcar_inspection/src/executor.cpp:55-74 | points are dealt with in order and parking begins after the last |
| InspectionMission.StepsInOrder | src/carcar_inspection/src/executor.cpp:39-46 | in every run each step is run after exactly those that belong before it: driving after restoring the camera, turning it after driving and stopping |
| InspectionMission.MissedAfterEveryApproach | src/carcar_inspection/src/executor.cpp:58-67 | in every run a point is recorded missed if and only if navigation failed to reach each of its approaches, in order |
| InspectionMission.PointsAreLeftRestored | src/carcar_inspection/src/executor.cpp:69-73 | in every run a point is left without being missed only after the camera was restored there, and a task succeeds only stopped at its parking place |
| InspectionMission.StepsAnswer | src/carcar_inspection/src/console_node.cpp:623-687 | when a step succeeds, fails or goes on waiting, by kind and answer; only navigation can fail |
| InspectionMission.CapturesExactly | src/carcar_inspection/src/console_node.cpp:679-686 | a photograph is stored exactly when one is taken of a point not photographed yet, even if recording it throws |
| InspectionMission.ThrowingEndsTheMission | src/carcar_inspection/src/console_node.cpp:698-711 | in every run a step that throws ends the mission |
| InspectionMission.ControlsAreObeyed | src/carcar_inspection/src/executor.cpp:47-78 | in every run starting, pausing, resuming and cancelling take effect exactly when they can, and lose no point, approach or photograph |
| InspectionMission.ValidateTask | src/carcar_inspection/include/carcar_inspection/domain.hpp:81-87 | a task is saved only with 1 to 100 points, none of them twice |
| InspectionMission.TreesAreBounded | src/carcar_inspection/src/executor.cpp:39-76 | no more trees are built than the approaches, plus one, plus the resumes |
| InspectionMission.WalkKeeps | src/carcar_inspection/src/console_node.cpp:623-687 | running the steps keeps the books: a photographed point is not taken again and cannot be missed |
| InspectionMission.Mission.TickTree | src/carcar_inspection/src/executor.cpp:39-46 | a tree goes on from the step it stopped at |
| InspectionMission.Mission.TakeStep | src/carcar_inspection/src/console_node.cpp:623-687 | the step function's memo and what each kind of step can answer |
| InspectionMission.Mission.Settle | src/carcar_inspection/src/executor.cpp:55-74 | retries, skipped points, the next point, parking and the end |
| InspectionMission.Mission.Tick | src/carcar_inspection/src/console_node.cpp:698-711 | the console cancels a mission that fails or throws |
| CameraRestore.RestoreMeansReadyToDrive | src/carcar_inspection/src/console_node.cpp:623-666 | in any run, with late and lost answers, a successful restore means its own release was accepted with the camera level, and depth data, both costmaps and both layers were renewed in that order since the camera settled |
| CameraRestore.RestoreCanSucceed | src/carcar_inspection/src/console_node.cpp:623-666 | from every state of a run with the camera level and nothing pending, a restore goes through when that evidence arrives in time |
| CameraRestore.CallsEndExactly | src/carcar_inspection/src/console_node.cpp:623-666 | a call succeeds exactly when its operation is complete, and throws exactly when it is out of time, unhealthy or cannot go on; then depth is closed |
| CameraRestore.TurnsOnlyWhenSafe | src/carcar_inspection/src/console_node.cpp:637-645 | in every run the camera is asked to turn only under hold and standing still, 0.3 s after the last confirmed step, one step towards its target, with depth closed |
| CameraRestore.AnswersMean | src/carcar_inspection/src/console_node.cpp:351-365 | an answer that does not grant what was asked stops everything; any other tells the console the hold and the board angle |
| CameraRestore.StepsAreExecutable | src/carcar_inspection/src/console_node.cpp:640-644 | each camera request is one the driver executes while both agree on the angle, and brings the camera one step nearer |
| CameraRestore.OnlyOwnReleaseCompletes | src/carcar_inspection/src/console_node.cpp:351-357 | in every run only the answer to a restore's own release completes it, never one to an earlier operation's |
| CameraRestore.StepRunner.Step | src/carcar_inspection/src/console_node.cpp:623-666 | one call for stopping, restoring or adjusting |
| InspectionHold.MovingMeansLevel | src/carcar_base/carcar_base/rosmaster_node.py:501-527 | in every run the vehicle is sent a motion only with the camera at 94 |
| InspectionHold.HolderMeansStopped | src/carcar_base/carcar_base/rosmaster_node.py:318-364 | without a holder the camera is at 94, with one the last motion sent is zero |
| InspectionHold.CameraMovesByOne | src/carcar_base/carcar_base/rosmaster_node.py:366-415 | every camera write is within 57 to 106, at most one step, and at standstill |
| InspectionHold.NoIdWrittenTwice | src/carcar_base/carcar_base/rosmaster_node.py:410-414 | two writes of one command id are at least 65 writes apart |
| InspectionHold.AskingAgainReplays | src/carcar_base/carcar_base/rosmaster_node.py:375-382 | asking again for one of the last 64 commands sends nothing and returns the first answer; with another angle it is refused |
| InspectionHold.GainsChangeAtStandstill | src/carcar_base/carcar_base/rosmaster_node.py:465-475 | in every run control gains are written only when the last motion sent is zero |
| InspectionHold.StaleCommandStops | src/carcar_base/carcar_base/rosmaster_node.py:529-537 | the timer after a stale velocity command leaves a stop as the last motion |
| InspectionHold.CommandsAreObeyed | src/carcar_base/carcar_base/rosmaster_node.py:501-527 | in every run a finite command without a holder is sent as it is within limits and else at the nearest limit, never with the opposite sign |
| InspectionHold.HoldsAreGranted | src/carcar_base/carcar_base/rosmaster_node.py:318-364 | exactly when a hold is taken or released |
| InspectionHold.FreshStepsAreWritten | src/carcar_base/carcar_base/rosmaster_node.py:366-415 | exactly when a camera step with a new id is written |
| InspectionHold.WatchdogStops | src/carcar_base/carcar_base/rosmaster_node.py:529-537 | the timer stops the vehicle exactly when the last command is too old and the last motion is not zero |
| InspectionHold.GainsAreWritten | src/carcar_base/carcar_base/rosmaster_node.py:465-499 | gains are written exactly when valid, to be applied and at standstill, and then succeed when the board confirms them |
| InspectionHold.RosmasterNode.OnInspectionHold | src/carcar_base/carcar_base/rosmaster_node.py:318-364 | taking and releasing the hold, with every refusal |
| InspectionHold.RosmasterNode.OnInspectionServo | src/carcar_base/carcar_base/rosmaster_node.py:366-415 | one bounded camera step, the command cache and its oldest entry |
| InspectionHold.RosmasterNode.OnCmdVel | src/carcar_base/carcar_base/rosmaster_node.py:501-527 | clamping, and zero while held |
| InspectionHold.RosmasterNode.OnParameters | src/carcar_base/carcar_base/rosmaster_node.py:465-499 | applying PID values is refused while moving, begins with three stops, and succeeds when the board reads them back |
| MapMatch.FindOccupied | src/carcar_navigation/src/localization_monitor.cpp:165-190 | the nested search finds an occupied cell exactly when one lies within the radius of the point's cell |
| MapMatch.PointsNearMatch | src/carcar_navigation/src/localization_monitor.cpp:165-190 | around an occupied cell every point of the grid matches that is within the distance along both axes |
| MapMatch.FreeMapMatchesNothing | src/carcar_navigation/src/localization_monitor.cpp:165-190 | a map without a cell from 65 up matches nothing |
| LocalizationLatch.CountersMeasureRuns | src/carcar_navigation/src/localization_monitor.cpp:250-256 | the two counters measure the current runs of good and bad cycles |
| LocalizationLatch.LatchCharacterised | src/carcar_navigation/src/localization_monitor.cpp:250-264 | for positive thresholds ready holds if and only if some cycle ended enough good ones, the source chain is valid since, and no long enough fault lies after it |
| LocalizationLatch.ReadyIsEarnedExactly | src/carcar_navigation/src/localization_monitor.cpp:236-264 | that meaning holds in every run of messages and cycles if and only if both thresholds are positive, or data is never fresh, or good cycles are impossible and the healthy threshold is positive |
| LocalizationLatch.CandidatesHaveTheirChain | src/carcar_navigation/src/localization_monitor.cpp:109-249 | a good cycle always has its whole source chain valid, because a scan transform is valid only after a map came |
| LocalizationLatch.BeamsCounted | src/carcar_navigation/src/localization_monitor.cpp:213-229 | the hit ratio times the number of endpoints is the number of beams whose endpoint has an occupied cell near it |
| LocalizationLatch.LostMeansNotGood | src/carcar_navigation/src/localization_monitor.cpp:213-249 | in every run no cycle is good after a scan none of whose endpoints matches the map, when the least ratio is positive |
| LocalizationLatch.CyclesMean | src/carcar_navigation/src/localization_monitor.cpp:236-249 | what a good cycle and a valid source chain are, told by the latest message of each kind |
| LocalizationLatch.ReadyMeansEarned | src/carcar_navigation/src/localization_monitor.cpp:236-275 | the characterisation over whole runs of messages and cycles |
| LocalizationLatch.LocalizationMonitor.OnScan | src/carcar_navigation/src/localization_monitor.cpp:192-234 | scan validity, endpoint count and hit ratio |
| LocalizationLatch.LocalizationMonitor.Evaluate | src/carcar_navigation/src/localization_monitor.cpp:236-275 | one cycle and what it publishes; ready implies recovery allowed |
| DepthLayerSwitch.RunKeeps | src/carcar_camera/src/depth_layer_supervisor.cpp:162-337 | in every run motion is allowed exactly while idle, and the pending counter is the number of unanswered requests |
| DepthLayerSwitch.FlipNeedsEverything | src/carcar_camera/src/depth_layer_supervisor.cpp:230-271 | the active flag changes only after both parameter and both clear acknowledgements were good, in time, and both costmaps are newer than the rebuild's start |
| DepthLayerSwitch.FailedForever | src/carcar_camera/src/depth_layer_supervisor.cpp:222-307 | a failed switch stays failed and stopped |
| DepthLayerSwitch.NoSwitchOutlivesItsTimeout | src/carcar_camera/src/depth_layer_supervisor.cpp:235-239 | no tick leaves a switch running past its timeout |
| DepthLayerSwitch.HealthMeansMessages | src/carcar_camera/src/depth_layer_supervisor.cpp:141-146 | in every run the camera counts as healthy if and only if its last health message said so and is not older than the timeout |
| DepthLayerSwitch.BadAnswerStops | src/carcar_camera/src/depth_layer_supervisor.cpp:240-260 | a bad answer fails the switch once all have come, and stops the vehicle |
| DepthLayerSwitch.RepliesCount | src/carcar_camera/src/depth_layer_supervisor.cpp:162-222 | a reply counts against the switch exactly when it threw, is empty or refuses a parameter |
| DepthLayerSwitch.DepthComesOn | src/carcar_camera/src/depth_layer_supervisor.cpp:290-330 | a run in which depth is turned on |
| DepthLayerSwitch.DepthMotionNeedsHealth | src/carcar_camera/src/depth_layer_supervisor.cpp:315-336 | after a tick motion is allowed with depth on and the camera not reported healthy in time, if and only if the degrading tick's second interface check contradicted its first |
| DepthLayerSwitch.DisagreementHappens | src/carcar_camera/src/depth_layer_supervisor.cpp:148-164 | a run in which they contradict each other, and motion is allowed with depth on and a silent camera |
| DepthLayerSwitch.EnablingNeedsStableHealth | src/carcar_camera/src/depth_layer_supervisor.cpp:290-330 | depth is turned on only when the camera was reported healthy, in time, at every tick of the stability window |
| DepthLayerSwitch.DepthLayerSupervisor.Tick | src/carcar_camera/src/depth_layer_supervisor.cpp:273-337 | one timer tick |
| DepthLayerSwitch.DepthLayerSupervisor.TickSwitch | src/carcar_camera/src/depth_layer_supervisor.cpp:230-271 | one step of a running switch |
| SendQueue.IdleMeansEmpty | src/carcar_mapping_console/src/http_server.cpp:241-276 | while open, nothing being written means nothing is waiting and no write is outstanding |
| SendQueue.ReliableOnceInOrder | src/carcar_mapping_console/src/http_server.cpp:255-275 | while open, the reliable messages written and then those queued, at most 16, are exactly those given, in order |
| SendQueue.LeasesAreRespected | src/carcar_mapping_console/src/http_server.cpp:217-254 | whatever texts are broadcast, no control state is handed to a transport after its lease, and none that was not broadcast |
| SendQueue.NothingWaitsWhenIdle | src/carcar_mapping_console/src/http_server.cpp:244-248 | an expired state never finds a waiting one to send instead |
| SendQueue.StatesAreAnInOrderSelection | src/carcar_mapping_console/src/http_server.cpp:241-276 | when the data channel is only turned on cleanly, states are handed over in the order of their broadcasts, each at most once |
| SendQueue.SwitchingKeepsOrderExactly | src/carcar_mapping_console/src/http_server.cpp:104-113 | after any such run, turning the channel on keeps the order in all that follows if and only if no usable state waits and no deferred one was overtaken |
| SendQueue.ChannelCanReorder | src/carcar_mapping_console/src/http_server.cpp:104-113 | a run of broadcasts in which a newer state overtakes a waiting one |
| SendQueue.OneWriteExactlyWithoutEmpty | src/carcar_mapping_console/src/http_server.cpp:255-275 | callers that broadcast texts of a given set never cause two writes at once if and only if the empty text is not in it |
| SendQueue.MailboxForwardsTheLatest | src/carcar_mapping_console/src/http_server.cpp:466-478 | at most one task is posted, each broadcast is forwarded at most once in order, and once the task has run the latest was forwarded |
| SendOutcome.NoticesGoOutInOrder | src/carcar_mapping_console/src/http_server.cpp:241-275 | while open, the notices written and then those queued are exactly all the connection was given, in order |
| SendOutcome.NewestIsNotLost | src/carcar_mapping_console/src/http_server.cpp:241-275 | in every run with clean activations the newest state given was handed over, waits or is deferred, or its lease is over, unless the channel was given up since |
| SendOutcome.DeferredIsRetried | src/carcar_mapping_console/src/http_server.cpp:223-240 | a deferred state has its timer armed and goes out when that fires and the channel takes it in time |
| SendOutcome.WritesSay | src/carcar_mapping_console/src/http_server.cpp:262-269 | in every run what is being written is the text of the message last handed to the socket, in short form exactly for a control state to a client with the profile or the channel |
| SendOutcome.ClosesExactly | src/carcar_mapping_console/src/http_server.cpp:258-275 | the connection closes exactly when told to, when a write fails and when a notice finds 16 queued |
| SendQueue.Ws.Send | src/carcar_mapping_console/src/http_server.cpp:241-269 | what happens to one message |
| SendQueue.Ws.WriteEnded | src/carcar_mapping_console/src/http_server.cpp:270-275 | the end of a write |
| SendQueue.BroadcastBox.Put | src/carcar_mapping_console/src/http_server.cpp:466-472 | the mailbox as other threads see it |
| MapRestore.RelaysAreTrials | src/carcar_mapping_console/src/web_gateway.cpp:97-107 | over all interleavings, before the operator confirms a restored map the scans relayed number at most the completed deserializations |
| MapRestore.CandidateIsTheTrialScan | src/carcar_mapping_console/src/web_gateway.cpp:113-129 | a candidate is reached only by a pose with the non-zero stamp of the one scan relayed in this trial |
| MapRestore.FailureIsFinal | src/carcar_mapping_console/src/web_gateway.cpp:226-246 | a failed session is left only by launching or ending a task |
| MapRestore.CurrentNeedsConfirmation | src/carcar_mapping_console/src/web_gateway.cpp:528-535 | a restored map becomes current only by confirming a candidate, or back from saving a confirmed one |
| RestoreOutcome.StartsAsAsked | src/carcar_mapping_console/src/web_gateway.cpp:80-89 | the state each of the three ways of starting begins in |
| RestoreOutcome.FailsExactly | src/carcar_mapping_console/src/web_gateway.cpp:113-246 | the exact causes of a failed session, over callbacks, polls and jobs |
| RestoreOutcome.CurrentExactly | src/carcar_mapping_console/src/web_gateway.cpp:226-246 | exactly how a session becomes current |
| RestoreOutcome.CandidateExactly | src/carcar_mapping_console/src/web_gateway.cpp:113-129 | in every run a candidate is reached if and only if a pose carries the non-zero stamp of the scan relayed in this trial |
| RestoreOutcome.RestoreCanSucceed | src/carcar_mapping_console/src/web_gateway.cpp:528-607 | from every state in which a restore can be asked for it can be carried through, with exactly one deserialization and one trial scan |
| RestoreOutcome.NoTrialOutlivesItsTime | src/carcar_mapping_console/src/web_gateway.cpp:246-246 | after a poll a trial is within its six seconds |
| RestoreOutcome.NothingIsForwardedMeanwhile | src/carcar_mapping_console/src/web_gateway.cpp:97-107 | in every run nothing is relayed while the map is loaded, matched or saved, but the trial scan |
| RestoreOutcome.FailedRelaysExactly | src/carcar_mapping_console/src/web_gateway.cpp:226-246 | a failed session relays nothing, with exactly one exception: a launch in the new mode that was still under way comes to its end |
| RestoreOutcome.FailedCanRelay | src/carcar_mapping_console/src/web_gateway.cpp:394-406 | a run with that exception |
| RestoreOutcome.InputsMean | src/carcar_mapping_console/src/web_gateway.cpp:108-129 | the session has a map, and a pose, exactly when one came in since its inputs were last cleared |
| RestoreOutcome.DirtyMeans | src/carcar_mapping_console/src/web_gateway.cpp:127-129 | work is unsaved exactly when a pose extended the current map since it was last saved, launched or ended |
| RestoreOutcome.UnsavedWorkIsGuarded | src/carcar_mapping_console/src/web_gateway.cpp:415-447 | in every run unsaved work is given up only with the operator's consent |
| RestoreOutcome.RequestsNeed | src/carcar_mapping_console/src/web_gateway.cpp:415-555 | who may ask for which job, and when |
| RestoreOutcome.TaskComesUp | src/carcar_mapping_console/src/web_gateway.cpp:226-245 | from every resting state a new task can be brought up until it runs and relays |
| RestoreOutcome.ResumedTaskComesUp | src/carcar_mapping_console/src/web_gateway.cpp:226-245 | and so can a resumed one, which relays nothing yet |
| RestoreOutcome.SavingKeepsTheSession | src/carcar_mapping_console/src/web_gateway.cpp:608-655 | a save that goes through leaves the session current and relaying with nothing unsaved |
| RestoreOutcome.FinishingEndsTheTask | src/carcar_mapping_console/src/web_gateway.cpp:608-655 | a save that finishes the task stores the map and brings everything to rest |
| RestoreOutcome.EndingBringsRest | src/carcar_mapping_console/src/web_gateway.cpp:407-447 | a task can be ended, also while it is starting |
| RestoreOutcome.RestartGoesBack | src/carcar_mapping_console/src/web_gateway.cpp:431-440 | a restart goes back to the map saved since the launch, if there is one |
| MapRestore.Gateway.LifecycleRequest | src/carcar_mapping_console/src/web_gateway.cpp:415-447 | starting, restarting and ending a task, and its video |
| MapRestore.Gateway.PoseReceived | src/carcar_mapping_console/src/web_gateway.cpp:113-129 | the pose callback |
| MapRestore.Gateway.UpdateState | src/carcar_mapping_console/src/web_gateway.cpp:226-246 | the status timer: task watch, first map and trial timeout |
| MapRestore.Gateway.RestoreRequest | src/carcar_mapping_console/src/web_gateway.cpp:536-555 | the request to restore at a position |
| MapRestore.Gateway.RestoreOn | src/carcar_mapping_console/src/web_gateway.cpp:597-607 | the steps of the restoring job |
| MapRestore.Gateway.Throw | src/carcar_mapping_console/src/web_gateway.cpp:561-566 | what a job that throws leaves |
| MecanumKinematics.TargetsWithinFullScale | src/carcar_base/carcar_base/math_utils.py:345-385 | every wheel target stays within full scale |
| MecanumKinematics.TargetOfWheel | src/carcar_base/carcar_base/math_utils.py:379-385 | a port's target is that of the wheel wired to it |
| MecanumKinematics.RewiringMovesTargets | src/carcar_base/carcar_base/math_utils.py:379-385 | rewiring moves each wheel's target to its new port and changes nothing else |
| MecanumKinematics.PortsDistinct | src/carcar_base/carcar_base/math_utils.py:96-100 | a wiring that passes the set check names every wheel once |
| MecanumKinematics.GoodPortsExactly | src/carcar_base/carcar_base/math_utils.py:356-358 | a wiring is accepted exactly when it has four ports and every wheel is among them |
| MecanumKinematics.AcceptedExactly | src/carcar_base/carcar_base/math_utils.py:355-362 | targets are computed exactly for a good wiring and positive full scales, odometry exactly for four deltas and a good calibration |
| MecanumKinematics.CommandsRoundTrip | src/carcar_base/carcar_base/math_utils.py:128-175 | targets turned into counts and passed to odometry give one positive factor times the clamped command, for every wiring, signs and positive calibration |
| MecanumKinematics.TargetsMean | src/carcar_base/carcar_base/math_utils.py:345-385 | targets are full scale times the wheels' motion while none asks for more, and otherwise the most demanding wheel gets exactly full scale |
| MecanumKinematics.CommandIsRelative | src/carcar_base/carcar_base/math_utils.py:363-365 | a command is taken relative to its full scale and no further |
| MecanumKinematics.OdometryOfRevolutions | src/carcar_base/carcar_base/math_utils.py:128-175 | for given revolutions of the wheels, whatever the wiring, signs and counts, the body moves by pi times the diameter times their mean, diagonal difference, and left-right difference at half of wheelbase plus track |

## Left out

- TraceLine: voxel indices are unbounded here; the source keeps them in 32 bits. Arithmetic is exact where the source rounds, in the voxel walk, the box test and the kinematics.
- UpdateExportedState: wheel positions and velocities derived from the counts are not modelled, and relative counts are unbounded where the source has 64 bits.
- Evaluate: its two cycle counters are unbounded; the particle spread and a beam's endpoint in the map's frame are inputs.
- Tick: one clock reading stands for the several a tick takes, in the supervisor and in the depth-layer supervisor; callbacks of other threads arrive between ticks and while the child is ticked.
- OnConfirm: HTTP routing, map drawing, saving of files and process launching are not modelled; starting the backend is one step.
- AllHalted: halting the supervisor's children is taken to halt every running leaf below them, as the behaviour-tree library does through their parents.
- Write: the driver's write gate on stale encoder feedback and the other hardware commands are left out as easy members beside the encoder chain.
- Parameter checks at construction, diagnostics texts, failure reasons and the status marker are left out; the properties hold for any settings.
- CancelOf: the action client object is taken to outlive its goals, and one clock reading stands for the several of one poll.
- OnParameters: the gains themselves are not modelled.
- The destructors of leaves and sessions, which act when a tree is torn down, are left out; a tree is halted before.
- Choosing recovery motions, their sweep checks and the backup budget are left out: a leaf's preparation and reservation are answers from outside.
- The progress guard's thresholds are left out: it appears as an arbitrary moment at which permission is revoked and a leaf halted.
- Required mode of the depth supervisor is left out: it has no switch.
- Trigonometry, pose integration and coordinate transforms are left out.
- The console's web pages, teaching, photo storage, manual driving and alarms are left out; a mission starts from a task and points as the store keeps them.
- Sockets, message transport and JSON are left out: reads, writes and acknowledgements are arbitrary answers, texts are opaque, and running out of answers is running into the deadline.
